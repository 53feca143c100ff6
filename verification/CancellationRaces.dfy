/**
 A cancellation looks up the hold it releases only after its card update, and by then the task's map
 entry may be gone or belong to a later turn. Exactly when it ends the hold of the turn it cancelled,
 and which hold it releases otherwise.
 */
module CancellationRaces {
  import opened Common
  import opened TaskStore
  import opened Usage
  import opened Coordinator
  import opened CoordinatorSafety
  import opened HoldConservation
  import opened HoldAccounting
  import opened HoldTracing

  // ---------------------------------------------------------------- the cancelled turn

  /** Call `c` is in the middle of a turn of live task `t` with active hold `h`. */
  ghost predicate InTurn(w: World, c: CallId, t: TaskId, h: HoldId) {
    && c in w.calls && Driving(w.calls[c]) && w.calls[c].task == t && w.calls[c].hold == Some(h)
    && IsActive(w.ledger, h) && t in w.db.tasks && !Terminal(w.db.tasks[t].status)
  }

  /** No other call is in a turn of the task or cancelling it. */
  ghost predicate Alone(w: World, c: CallId, t: TaskId) {
    forall d :: d in w.calls && d != c ==> !OnDuty(w.calls[d], t)
  }

  /** In a conserved world a driven task has one driver and no cancellation under way. */
  lemma ConservedAlone(w: World, c: CallId, h: HoldId)
    requires HoldsConserved(w) && c in w.calls && Driving(w.calls[c]) && w.calls[c].hold == Some(h)
    ensures InTurn(w, c, w.calls[c].task, h) && Alone(w, c, w.calls[c].task)
  {
    var t := w.calls[c].task;
    assert CallOk(w, c) && Drives(w, c, t);
    forall d | d in w.calls && d != c ensures !OnDuty(w.calls[d], t) {
      assert CallOk(w, d);
      assert !Drives(w, d, t);
    }
  }

  /** The task is cancelled with its result stored, and `k` is waiting for its card. Other turns of the
      task and other cancellations of it may be under way. */
  ghost predicate Racing(w: World, k: CallId, t: TaskId, h: HoldId) {
    && t in w.db.tasks && Terminal(w.db.tasks[t].status) && t in w.db.results
    && Suspended(w, k, {AwaitCancelClosing}) && w.calls[k].task == t
    && AttachedTo(w, t, h)
  }

  /** Besides the cancellation, only the turn with hold `h` may be under way. */
  ghost predicate OnlyTurn(w: World, k: CallId, t: TaskId, h: HoldId) {
    forall d :: d in w.calls && d != k && OnDuty(w.calls[d], t) ==> w.calls[d].hold == Some(h)
  }

  ghost predicate HeldFor(w: World, t: TaskId, h: HoldId) {
    IsActive(w.ledger, h) && Lookup(w.activeReservations, t) == Some(h)
  }

  lemma CancelMoves(db: Tables, t: TaskId, now: int)
    requires Consistent(db) && t in db.tasks && !Terminal(db.tasks[t].status)
    ensures var moved := Transition(db, t, {db.tasks[t].status}, Cancelled, now);
            && moved.Ok? && SaveResult(moved.value, t, db.tasks[t].provider, Cancelled).Ok?
  {
    assert TaskConsistent(db, t);
  }

  /** The first segment of a cancellation that finds a renderer. */
  lemma CancelSegment(w: World, k: CallId, t: TaskId, now: int)
    requires WellFormed(w.ledger) && Consistent(w.db)
    requires t in w.db.tasks && !Terminal(w.db.tasks[t].status) && k !in w.calls && t in w.activeRenderers
    ensures var w1 := Step(w, CancelTask(k, t, now));
            var f := Flagged(w, t);
            && k in w1.calls && w1 == f.(db := w1.db, calls := f.calls[k := w1.calls[k]])
            && w1.calls[k].point == AwaitCancelClosing && w1.calls[k].task == t
            && w1.db == w.db.(tasks := w.db.tasks[t := Moved(w.db.tasks[t], Cancelled, now)],
                              results := w.db.results[t := Cancelled])
  {
    CancelMoves(w.db, t, now);
    var moved := Transition(w.db, t, {w.db.tasks[t].status}, Cancelled, now).value;
    assert SaveResult(moved, t, w.db.tasks[t].provider, Cancelled).value.results == w.db.results[t := Cancelled];
  }

  /** The row and its result are written, and a call waits for the card. */
  lemma CancelWaits(w: World, c: CallId, k: CallId, t: TaskId, h: HoldId, now: int)
    requires WellFormed(w.ledger) && Consistent(w.db) && Accounted(w)
    requires InTurn(w, c, t, h) && k !in w.calls && t in w.activeRenderers
    ensures var w1 := Step(w, CancelTask(k, t, now));
            && Racing(w1, k, t, h) && w1.ledger == w.ledger && w1.activeReservations == w.activeReservations
            && w1.capacity == w.capacity
  {
    CancelSegment(w, k, t, now);
    FlaggedCalls(w, t);
    assert CallFits(w, c);
  }

  /** A turn waiting for its completion is not marked as cancelled while starting. */
  lemma CancelKeepsCalls(w: World, c: CallId, k: CallId, t: TaskId, h: HoldId, now: int)
    requires WellFormed(w.ledger) && Consistent(w.db) && Accounted(w)
    requires InTurn(w, c, t, h) && Alone(w, c, t) && k !in w.calls && t in w.activeRenderers
    requires w.calls[c].point != AwaitProvider
    ensures var w1 := Step(w, CancelTask(k, t, now));
            && k in w1.calls && w1.calls == w.calls[k := w1.calls[k]]
            && w1.startingTasks == w.startingTasks && w1.activeRenderers == w.activeRenderers
            && w1.db == w.db.(tasks := w.db.tasks[t := Moved(w.db.tasks[t], Cancelled, now)],
                              results := w.db.results[t := Cancelled])
  {
    CancelSegment(w, k, t, now);
    assert t in w.startingTasks ==> Starts(w, t);
  }

  // ---------------------------------------------------------------- what disturbs it

  /** The provider cannot start the turn, or a continuation gets another session. */
  predicate StartFails(w: World, e: Event) {
    && e.ProviderReady? && Suspended(w, e.c, {AwaitProvider})
    && (e.started.None? || (w.calls[e.c].kind == ContinueCall && e.started != w.calls[e.c].session))
  }

  /** A call of the task drops the task's map entry: a completion arrives, a continuation reaches its
      reopening or fails to start, or another cancellation's card is done. */
  predicate DropsEntry(w: World, e: Event, t: TaskId) {
    && Resumes(w, e) && w.calls[e.c].task == t
    && match w.calls[e.c].point
       case AwaitCompletion => e.TurnCompleted?
       case AwaitReservation => e.Resume?
       case AwaitCancelClosing => e.Resume?
       case AwaitProvider => StartFails(w, e) && w.calls[e.c].kind == ContinueCall
       case _ => false
  }

  /** A new task's cancelled turn releases its own hold: its start fails, or it finds the row moved on. */
  predicate ReleasesOwn(w: World, e: Event, h: HoldId) {
    && Resumes(w, e) && w.calls[e.c].hold == Some(h) && w.calls[e.c].kind == StartCall
    && match w.calls[e.c].point
       case AwaitRenderer => e.Resume?
       case AwaitProvider => StartFails(w, e)
       case _ => false
  }

  /** The two ways a cancellation loses sight of hold `h`. */
  predicate Disturbs(w: World, e: Event, t: TaskId, h: HoldId) {
    DropsEntry(w, e, t) || ReleasesOwn(w, e, h)
  }

  ghost predicate Undisturbed(w: World, es: seq<Event>, t: TaskId, h: HoldId)
    requires Balanced(w.ledger)
    decreases |es|
  {
    es == [] ||
    (!Disturbs(w, es[0], t, h) && (StepBalanced(w, es[0]); Undisturbed(Step(w, es[0]), es[1..], t, h)))
  }

  /** Nothing in the run stops the process or resumes the cancellation. */
  predicate Before(k: CallId, e: Event) {
    !e.Restart? && !e.CrashedRestart? && !(e.Resume? && e.c == k)
  }

  lemma PassingKeepsRace(w: World, w': World, k: CallId, t: TaskId, h: HoldId)
    requires Racing(w, k, t, h) && PassesBy(w, w', t, h)
    ensures Racing(w', k, t, h) && (HeldFor(w', t, h) <==> HeldFor(w, t, h))
    ensures OnlyTurn(w, k, t, h) ==> OnlyTurn(w', k, t, h)
  {
    assert OnDuty(w.calls[k], t);
    assert Lookup(w'.calls, k) == Lookup(w.calls, k);
    assert k in w'.calls;
    assert Lookup(w'.ledger.holds, h) == Lookup(w.ledger.holds, h);
    forall d | d in w'.calls && OnDuty(w'.calls[d], t) ensures Lookup(w'.calls, d) == Lookup(w.calls, d) {
    }
  }

  /** The segment moves its own call on or ends it, and settles no hold but its own. */
  ghost predicate MovesOnly(w: World, w': World, c: CallId, h: HoldId)
    requires c in w.calls
  {
    && w'.db == w.db && w'.activeReservations == w.activeReservations
    && Lookup(w'.ledger.holds, h) == Lookup(w.ledger.holds, h)
    && (w'.calls == w.calls || w'.calls == w.calls - {c}
        || (exists p, f :: w'.calls == w.calls[c := w.calls[c].(point := p, cancelled := f)]))
  }

  lemma TurnResume(w: World, c: CallId, now: int, h: HoldId)
    requires c in w.calls && Driving(w.calls[c]) && w.calls[c].point != AwaitRenderer
    ensures MovesOnly(w, Resumed(w, c, now), c, h)
  {
    var call := w.calls[c];
    if call.point == AwaitStartingCard {
      assert Resumed(w, c, now).calls == w.calls[c := call.(point := AwaitProvider, cancelled := false)];
    } else if call.point == AwaitResumedRenderer {
      assert Resumed(w, c, now).calls == w.calls[c := call.(point := AwaitProvider, cancelled := call.cancelled)];
    } else if call.point == AwaitRunningCard {
      assert Resumed(w, c, now).calls == w.calls[c := call.(point := AwaitCompletion, cancelled := call.cancelled)];
    } else {
      assert Resumed(w, c, now) == w;
    }
  }

  /** A turn that finds its task cancelled and stored leaves through the catch clause. */
  lemma StartCaught(w: World, e: Event, k: CallId, t: TaskId, h: HoldId)
    requires WellFormed(w.ledger) && Accounted(w) && Racing(w, k, t, h)
    requires StartFails(w, e) && w.calls[e.c].task == t
    ensures Step(w, e) == Catch(w.(startingTasks := w.startingTasks - {t}), e.c)
  {
    assert CallFits(w, e.c);
    var w1 := w.(startingTasks := w.startingTasks - {t});
    assert FailStarting(w1, e.c, e.now) == Settled(w1, e.c, w.calls[e.c].provider, TurnUsage(None, 0, true));
  }

  /** The provider's answer finds the task cancelled. */
  lemma TurnAnswer(w: World, e: Event, k: CallId, t: TaskId, h: HoldId)
    requires WellFormed(w.ledger) && Accounted(w) && Racing(w, k, t, h) && e.ProviderReady?
    requires Suspended(w, e.c, {AwaitProvider}) && w.calls[e.c].task == t && !Disturbs(w, e, t, h)
    ensures MovesOnly(w, Step(w, e), e.c, h)
  {
    assert CallFits(w, e.c);
    if StartFails(w, e) {
      StartCaught(w, e, k, t, h);
    } else {
      assert Step(w, e).calls == w.calls - {e.c};
    }
  }

  /** A new task's turn whose renderer has started finds the task cancelled. */
  lemma RendererCaught(w: World, e: Event, k: CallId, t: TaskId, h: HoldId)
    requires WellFormed(w.ledger) && Accounted(w) && Racing(w, k, t, h) && e.Resume?
    requires Suspended(w, e.c, {AwaitRenderer}) && w.calls[e.c].task == t && w.calls[e.c].hold != Some(h)
    ensures MovesOnly(w, Step(w, e), e.c, h)
  {
    assert CallFits(w, e.c);
    assert Step(w, e) == Catch(w, e.c);
  }

  /** An event meant for another await does nothing. */
  lemma Misaddressed(w: World, e: Event)
    requires WellFormed(w.ledger) && Resumes(w, e) && Driving(w.calls[e.c]) && !e.Resume?
    requires !(e.ProviderReady? && w.calls[e.c].point == AwaitProvider)
    requires !(e.TurnCompleted? && w.calls[e.c].point == AwaitCompletion)
    ensures Step(w, e) == w
  {
  }

  /** A turn of the task moves on, or finds the task cancelled and leaves the map entry alone. */
  lemma TurnMove(w: World, e: Event, k: CallId, t: TaskId, h: HoldId)
    requires WellFormed(w.ledger) && Accounted(w) && Racing(w, k, t, h)
    requires Resumes(w, e) && w.calls[e.c].task == t && Driving(w.calls[e.c]) && !Disturbs(w, e, t, h)
    ensures MovesOnly(w, Step(w, e), e.c, h)
  {
    assert CallFits(w, e.c);
    if e.Resume? {
      if w.calls[e.c].point == AwaitRenderer { RendererCaught(w, e, k, t, h); } else { TurnResume(w, e.c, e.now, h); }
    } else if e.ProviderReady? && w.calls[e.c].point == AwaitProvider {
      TurnAnswer(w, e, k, t, h);
    } else {
      Misaddressed(w, e);
    }
  }

  lemma MoveKeepsRace(w: World, w': World, c: CallId, k: CallId, t: TaskId, h: HoldId)
    requires Racing(w, k, t, h) && c in w.calls && Driving(w.calls[c]) && w.calls[c].task == t && MovesOnly(w, w', c, h)
    ensures Racing(w', k, t, h) && (HeldFor(w', t, h) <==> HeldFor(w, t, h))
    ensures OnlyTurn(w, k, t, h) ==> OnlyTurn(w', k, t, h)
  {
    assert h in w'.ledger.holds;
    assert OnDuty(w.calls[c], t);
  }

  /** An event that neither disturbs nor resumes the cancellation leaves the race as it is. */
  lemma UndisturbedStep(w: World, e: Event, k: CallId, t: TaskId, h: HoldId)
    requires WellFormed(w.ledger) && Accounted(w) && Racing(w, k, t, h)
    requires Before(k, e) && !Disturbs(w, e, t, h)
    ensures Racing(Step(w, e), k, t, h) && (HeldFor(Step(w, e), t, h) <==> HeldFor(w, t, h))
    ensures OnlyTurn(w, k, t, h) ==> OnlyTurn(Step(w, e), k, t, h)
  {
    if e.CancelTask? && e.task == t {
      assert Step(w, e) == w;
    } else if Resumes(w, e) && w.calls[e.c].task == t && w.calls[e.c].point == AwaitCancelClosing {
      assert Step(w, e) == w;
    } else if Resumes(w, e) && OnDuty(w.calls[e.c], t) {
      TurnMove(w, e, k, t, h);
      MoveKeepsRace(w, Step(w, e), e.c, k, t, h);
    } else {
      EventPassesBy(w, e, t, h);
      PassingKeepsRace(w, Step(w, e), k, t, h);
    }
  }

  lemma ReopeningLoses(w: World, e: Event, k: CallId, t: TaskId, h: HoldId)
    requires WellFormed(w.ledger) && Accounted(w) && Racing(w, k, t, h) && w.capacity.Some?
    requires ReopensTask(w, e, t)
    ensures Lookup(Step(w, e).activeReservations, t) != Some(h)
  {
    assert CallFits(w, e.c);
    ReopeningRegisters(w, e.c, e.now);
  }

  /** A reopening registers its call's hold, or drops whatever was registered. */
  lemma ReopeningRegisters(w: World, c: CallId, now: int)
    requires Accounted(w) && Suspended(w, c, {AwaitReservation}) && w.calls[c].hold.Some?
    ensures Lookup(Reopened(w, c, now).activeReservations, w.calls[c].task) in {None, w.calls[c].hold}
  {
    var r := ReopenForContinuation(w.db, w.calls[c].task, now);
    AttachNeverFails(w, c);
    if r.Ok? {
      assert Attached(w.(db := r.value), c).Some?;
    }
  }

  lemma DropLoses(w: World, e: Event, k: CallId, t: TaskId, h: HoldId)
    requires WellFormed(w.ledger) && Accounted(w) && Racing(w, k, t, h) && w.capacity.Some?
    requires DropsEntry(w, e, t) && !ReopensTask(w, e, t)
    ensures t !in Step(w, e).activeReservations
  {
    assert CallFits(w, e.c);
    if w.calls[e.c].point == AwaitProvider {
      StartCaught(w, e, k, t, h);
    }
  }

  lemma OwnLoses(w: World, e: Event, k: CallId, t: TaskId, h: HoldId)
    requires WellFormed(w.ledger) && Accounted(w) && Racing(w, k, t, h) && ReleasesOwn(w, e, h)
    ensures !IsActive(Step(w, e).ledger, h)
  {
    assert CallFits(w, e.c);
    if w.calls[e.c].point == AwaitProvider {
      StartCaught(w, e, k, t, h);
    } else {
      assert Step(w, e) == Catch(w, e.c);
    }
  }

  /** A disturbing event takes the hold out of the cancellation's sight. */
  lemma DisturbedStep(w: World, e: Event, k: CallId, t: TaskId, h: HoldId)
    requires WellFormed(w.ledger) && Accounted(w) && Racing(w, k, t, h) && w.capacity.Some?
    requires Disturbs(w, e, t, h)
    ensures !HeldFor(Step(w, e), t, h)
  {
    if ReopensTask(w, e, t) {
      ReopeningLoses(w, e, k, t, h);
    } else if DropsEntry(w, e, t) {
      DropLoses(w, e, k, t, h);
    } else {
      OwnLoses(w, e, k, t, h);
    }
  }

  lemma LostForGood(w: World, es: seq<Event>, t: TaskId, h: HoldId)
    requires Balanced(w.ledger) && Accounted(w) && AttachedTo(w, t, h) && !HeldFor(w, t, h)
    ensures !HeldFor(Run(w, es), t, h)
  {
    RunFrozen(w, es);
    if IsActive(w.ledger, h) {
      NeverRegisteredAgain(w, es, t, h);
    }
  }

  /** While the cancellation waits for its card, what it would release is the cancelled turn's hold for
      as long as nothing disturbs it, and never again after that. */
  lemma {:induction false} HeldExactly(w: World, es: seq<Event>, k: CallId, t: TaskId, h: HoldId)
    requires Balanced(w.ledger) && Accounted(w) && Racing(w, k, t, h) && w.capacity.Some?
    requires forall e :: e in es ==> Before(k, e)
    ensures HeldFor(Run(w, es), t, h) <==> HeldFor(w, t, h) && Undisturbed(w, es, t, h)
    decreases |es|
  {
    if es != [] {
      var e := es[0];
      StepBalanced(w, e);
      StepAccounted(w, e);
      StepFrozen(w, e);
      if Disturbs(w, e, t, h) {
        DisturbedStep(w, e, k, t, h);
        LostForGood(Step(w, e), es[1..], t, h);
      } else {
        UndisturbedStep(w, e, k, t, h);
        StepCapacity(w, e);
        HeldExactly(Step(w, e), es[1..], k, t, h);
      }
    }
  }

  /** A call awaiting a completion or its card stays where it is until that arrives. */
  lemma OtherCallsStay(w: World, e: Event, k: CallId)
    requires WellFormed(w.ledger) && Accounted(w) && Suspended(w, k, {AwaitCancelClosing, AwaitCompletion})
    requires Before(k, e) && !(e.TurnCompleted? && e.c == k)
    ensures Lookup(Step(w, e).calls, k) == Some(w.calls[k])
  {
    if Resumes(w, e) {
      if e.c == k { assert Step(w, e) == w; } else { StepConfined(w, e); }
    } else if e.CancelTask? {
      CancelLeavesCall(w, e, k);
    }
  }

  lemma CancelLeavesCall(w: World, e: Event, k: CallId)
    requires WellFormed(w.ledger) && Accounted(w) && Suspended(w, k, {AwaitCancelClosing, AwaitCompletion}) && e.CancelTask?
    ensures Lookup(Step(w, e).calls, k) == Some(w.calls[k])
  {
    assert e.task in w.startingTasks ==> Starts(w, e.task);
    CancellingShape(w, e.c, e.task, e.now);
  }

  lemma {:induction false} CancelStillWaits(w: World, es: seq<Event>, k: CallId)
    requires Balanced(w.ledger) && Accounted(w) && Suspended(w, k, {AwaitCancelClosing})
    requires forall e :: e in es ==> Before(k, e)
    ensures Lookup(Run(w, es).calls, k) == Some(w.calls[k])
    decreases |es|
  {
    if es != [] {
      var e := es[0];
      StepBalanced(w, e);
      StepAccounted(w, e);
      if e.TurnCompleted? && e.c == k {
        assert Step(w, e) == w;
      } else {
        OtherCallsStay(w, e, k);
      }
      CancelStillWaits(Step(w, e), es[1..], k);
    }
  }

  /** Resuming the cancellation releases exactly what is registered for the task by then. */
  lemma CancelReleases(w: World, k: CallId, later: int)
    requires WellFormed(w.ledger) && Suspended(w, k, {AwaitCancelClosing})
    ensures var w' := Step(w, Resume(k, later));
            && w'.db == w.db && w'.calls == w.calls - {k}
            && w'.ledger == TryRelease(w.ledger, Lookup(w.activeReservations, w.calls[k].task))
  {
  }

  /** The exact theorem, in every reachable world, with any other turns and cancellations of the task under
      way. A cancellation ends the hold of a turn if and only if that hold was registered for the task
      and, until the card update is over, no call of the task drops its map entry and the turn does not
      release the hold itself. */
  lemma CancelEndsHoldExactly(w: World, c: CallId, k: CallId, t: TaskId, h: HoldId, es: seq<Event>, now: int, later: int)
    requires Balanced(w.ledger) && Consistent(w.db) && Accounted(w)
    requires InTurn(w, c, t, h) && k !in w.calls && t in w.activeRenderers
    requires forall e :: e in es ==> Before(k, e)
    ensures var w1 := Step(w, CancelTask(k, t, now));
            && Balanced(w1.ledger)
            && var w2 := Run(w1, es);
            && Balanced(w2.ledger)
            && var w3 := Step(w2, Resume(k, later));
            && w3.ledger == TryRelease(w2.ledger, Lookup(w2.activeReservations, t))
            && (IsActive(w2.ledger, h) && !IsActive(w3.ledger, h) <==> HeldFor(w2, t, h))
            && (HeldFor(w2, t, h) <==> Lookup(w.activeReservations, t) == Some(h) && Undisturbed(w1, es, t, h))
  {
    var w1 := Step(w, CancelTask(k, t, now));
    StepBalanced(w, CancelTask(k, t, now));
    StepAccounted(w, CancelTask(k, t, now));
    CancelWaits(w, c, k, t, h, now);
    assert CallFits(w, c);
    HeldExactly(w1, es, k, t, h);
    CancelStillWaits(w1, es, k);
    RunAppend(w1, es, []);
    assert es + [] == es;
    CancelReleases(Run(w1, es), k, later);
  }

  /** Without a renderer there is no card to wait for, and the cancellation releases what is registered in
      its one segment. */
  lemma CancelAtOnce(w: World, c: CallId, k: CallId, t: TaskId, h: HoldId, now: int)
    requires WellFormed(w.ledger) && Consistent(w.db) && InTurn(w, c, t, h) && k !in w.calls && t !in w.activeRenderers
    ensures var w1 := Step(w, CancelTask(k, t, now));
            && w1.ledger == TryRelease(w.ledger, Lookup(w.activeReservations, t))
            && (!IsActive(w1.ledger, h) <==> Lookup(w.activeReservations, t) == Some(h))
  {
    CancelMoves(w.db, t, now);
  }

  // ---------------------------------------------------------------- for a turn that awaits its completion

  /** The completion of call `c`, or a continuation reaching its reopening. */
  predicate Overtakes(w: World, e: Event, c: CallId, t: TaskId) {
    (e.TurnCompleted? && e.c == c) || ReopensTask(w, e, t)
  }

  ghost predicate Overtaken(w: World, es: seq<Event>, c: CallId, t: TaskId)
    requires Balanced(w.ledger)
  {
    exists i :: 0 <= i < |es| && Overtakes(Run(w, es[..i]), es[i], c, t)
  }

  lemma OvertakenUnfold(w: World, es: seq<Event>, c: CallId, t: TaskId)
    requires Balanced(w.ledger) && es != []
    ensures Balanced(Step(w, es[0]).ledger)
    ensures Overtaken(w, es, c, t) <==> Overtakes(w, es[0], c, t) || Overtaken(Step(w, es[0]), es[1..], c, t)
  {
    RunOne(w, es[0]);
    assert es[..0] == [] && Run(w, []) == w;
    forall i | 0 < i < |es| ensures Run(w, es[..i]) == Run(Step(w, es[0]), es[1..][..i - 1]) {
      RunStep(w, es[..i]);
      assert es[..i][1..] == es[1..][..i - 1];
    }
    if Overtaken(Step(w, es[0]), es[1..], c, t) {
      var i :| 0 <= i < |es[1..]| && Overtakes(Run(Step(w, es[0]), es[1..][..i]), es[1..][i], c, t);
      assert Overtakes(Run(w, es[..i + 1]), es[i + 1], c, t);
    }
    if Overtaken(w, es, c, t) && !Overtakes(w, es[0], c, t) {
      var i :| 0 <= i < |es| && Overtakes(Run(w, es[..i]), es[i], c, t);
      assert Overtakes(Run(Step(w, es[0]), es[1..][..i - 1]), es[1..][i - 1], c, t);
    }
  }

  lemma DisturbsExactly(w: World, e: Event, c: CallId, k: CallId, t: TaskId, h: HoldId)
    requires Accounted(w) && Racing(w, k, t, h) && OnlyTurn(w, k, t, h) && Before(k, e)
    requires Suspended(w, c, {AwaitCompletion}) && w.calls[c].hold == Some(h) && w.calls[c].task == t
    ensures Disturbs(w, e, t, h) <==> Overtakes(w, e, c, t)
  {
    if Disturbs(w, e, t, h) && !ReopensTask(w, e, t) {
      assert e.c == c;
    }
  }

  /** For a turn awaiting its completion, with no other under way, the disturbances are exactly: that
      completion, and a continuation of the task that reaches its reopening, whether or not the reopening
      succeeds. */
  lemma {:induction false} DisturbedExactly(w: World, es: seq<Event>, c: CallId, k: CallId, t: TaskId, h: HoldId)
    requires Balanced(w.ledger) && Accounted(w) && Racing(w, k, t, h) && OnlyTurn(w, k, t, h)
    requires Suspended(w, c, {AwaitCompletion}) && w.calls[c].hold == Some(h) && w.calls[c].task == t
    requires forall e :: e in es ==> Before(k, e)
    ensures !Undisturbed(w, es, t, h) <==> Overtaken(w, es, c, t)
    decreases |es|
  {
    if es != [] {
      var e := es[0];
      OvertakenUnfold(w, es, c, t);
      StepAccounted(w, e);
      DisturbsExactly(w, e, c, k, t, h);
      if !Disturbs(w, e, t, h) {
        UndisturbedStep(w, e, k, t, h);
        if e.Resume? && e.c == c { assert Step(w, e) == w; } else { OtherCallsStay(w, e, c); }
        DisturbedExactly(Step(w, e), es[1..], c, k, t, h);
      }
    }
  }

  lemma CancelledAlone(w: World, c: CallId, k: CallId, t: TaskId, h: HoldId, now: int)
    requires WellFormed(w.ledger) && Consistent(w.db) && Accounted(w)
    requires InTurn(w, c, t, h) && Alone(w, c, t) && k !in w.calls && t in w.activeRenderers
    requires w.calls[c].point != AwaitProvider
    ensures OnlyTurn(Step(w, CancelTask(k, t, now)), k, t, h)
  {
    CancelKeepsCalls(w, c, k, t, h, now);
  }

  /** In a conserved world: cancelling a turn that awaits its completion does not end that turn's hold
      exactly when, before the card update is over, the turn completes or a continuation of the task
      reaches its reopening, or when the hold was not registered to begin with. */
  lemma CancelLosesHoldExactly(w: World, c: CallId, k: CallId, h: HoldId, es: seq<Event>, now: int, later: int)
    requires Balanced(w.ledger) && Consistent(w.db) && Accounted(w) && HoldsConserved(w)
    requires Suspended(w, c, {AwaitCompletion}) && w.calls[c].hold == Some(h) && k !in w.calls
    requires w.calls[c].task in w.activeRenderers
    requires forall e :: e in es ==> Before(k, e)
    ensures var t := w.calls[c].task;
            var w1 := Step(w, CancelTask(k, t, now));
            && Balanced(w1.ledger)
            && var w2 := Run(w1, es);
            && Balanced(w2.ledger)
            && var w3 := Step(w2, Resume(k, later));
            (IsActive(w2.ledger, h) && !IsActive(w3.ledger, h) <==>
              Lookup(w.activeReservations, t) == Some(h) && !Overtaken(w1, es, c, t))
  {
    var t := w.calls[c].task;
    ConservedAlone(w, c, h);
    StepBalanced(w, CancelTask(k, t, now));
    StepAccounted(w, CancelTask(k, t, now));
    CancelEndsHoldExactly(w, c, k, t, h, es, now, later);
    CancelKeepsCalls(w, c, k, t, h, now);
    CancelWaits(w, c, k, t, h, now);
    CancelledAlone(w, c, k, t, h, now);
    DisturbedExactly(Step(w, CancelTask(k, t, now)), es, c, k, t, h);
  }

  // ---------------------------------------------------------------- what it releases instead

  ghost predicate RegisteredSince(w: World, es: seq<Event>, t: TaskId, x: HoldId)
    requires Balanced(w.ledger)
  {
    exists i :: 0 <= i < |es| && Registers(Run(w, es[..i]), es[i], t, x)
                && ReopensTask(Run(w, es[..i]), es[i], t)
  }

  lemma RegisteredSnoc(w: World, es: seq<Event>, t: TaskId, x: HoldId)
    requires Balanced(w.ledger) && es != []
    requires RegisteredSince(w, es[..|es| - 1], t, x)
    ensures RegisteredSince(w, es, t, x)
  {
    var before := es[..|es| - 1];
    var i :| 0 <= i < |before| && Registers(Run(w, before[..i]), before[i], t, x) && ReopensTask(Run(w, before[..i]), before[i], t);
    assert before[..i] == es[..i] && before[i] == es[i];
  }

  lemma {:induction false} RegisteredBySome(w: World, es: seq<Event>, t: TaskId, x: HoldId)
    requires Balanced(w.ledger) && Consistent(w.db) && Accounted(w) && t in w.db.tasks
    requires Lookup(Run(w, es).activeReservations, t) == Some(x)
    ensures Lookup(w.activeReservations, t) == Some(x) || RegisteredSince(w, es, t, x)
    decreases |es|
  {
    if es != [] {
      var n := |es| - 1;
      assert es == es[..n] + [es[n]];
      RunSnoc(w, es[..n], es[n]);
      RunAccounted(w, es[..n]);
      RunKeeps(w, es[..n]);
      StepRegisters(Run(w, es[..n]), es[n], t);
      if Lookup(Run(w, es[..n]).activeReservations, t) == Some(x) {
        RegisteredBySome(w, es[..n], t, x);
        if RegisteredSince(w, es[..n], t, x) { RegisteredSnoc(w, es, t, x); }
      }
    }
  }

  /** When the cancellation releases another hold than that of the turn it cancelled, it is the hold of a
      continuation that reopened the task in the meantime. */
  lemma ReleasesLaterTurn(w1: World, es: seq<Event>, k: CallId, t: TaskId, h: HoldId, x: HoldId, later: int)
    requires Balanced(w1.ledger) && Consistent(w1.db) && Accounted(w1) && Racing(w1, k, t, h)
    requires forall e :: e in es ==> Before(k, e)
    requires Lookup(w1.activeReservations, t) == Some(h) && x != h
    requires Balanced(Run(w1, es).ledger)
    requires IsActive(Run(w1, es).ledger, x) && !IsActive(Step(Run(w1, es), Resume(k, later)).ledger, x)
    ensures RegisteredSince(w1, es, t, x)
  {
    CancelStillWaits(w1, es, k);
    CancelReleases(Run(w1, es), k, later);
    RegisteredBySome(w1, es, t, x);
  }
}
