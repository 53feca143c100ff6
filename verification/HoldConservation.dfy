/**
 Conservation of usage holds over runs without cancellations and without a restart whose recovery was
 cut short: every active hold belongs to exactly one call in
 flight, which will settle it, or to a task that a restart left in `created`.
 */
module HoldConservation {
  import opened Common
  import opened TaskStore
  import opened Usage
  import opened Coordinator
  import opened CoordinatorSafety

  /** The call has persisted or reopened its task and not yet ended its turn. */
  predicate Driving(call: Call) {
    call.point in {AwaitRenderer, AwaitStartingCard, AwaitProvider, AwaitRunningCard, AwaitCompletion, AwaitResumedRenderer}
  }

  /** The statuses a driven task can have at each await. */
  function ExpectedStatuses(p: Point): set<Status> {
    match p
    case AwaitRenderer => {Created}
    case AwaitStartingCard => {Starting}
    case AwaitResumedRenderer => {Starting}
    case AwaitProvider => {Starting}
    case AwaitRunningCard => {Running, WaitingForUser}
    case AwaitCompletion => {Running, WaitingForUser}
    case _ => {}
  }

  /** The call still has to settle its hold. */
  predicate Owning(call: Call) {
    call.hold.Some? && call.point !in {AwaitClosing, AwaitCancelClosing}
  }

  ghost predicate CallOk(w: World, c: CallId)
    requires c in w.calls
  {
    var call := w.calls[c];
    && call.kind != CancelCall && !call.cancelled
    && (call.point == AwaitAvailability ==> call.hold.None?)
    && call.point != AwaitCancelClosing
    && (Driving(call) ==> call.task in w.db.tasks && w.db.tasks[call.task].status in ExpectedStatuses(call.point))
    && (Owning(call) ==>
          && IsActive(w.ledger, call.hold.value)
          && w.ledger.holds[call.hold.value].taskId == (if Driving(call) then Some(call.task) else None))
  }

  ghost predicate Owns(w: World, c: CallId, h: HoldId) {
    c in w.calls && Owning(w.calls[c]) && w.calls[c].hold == Some(h)
  }

  ghost predicate Drives(w: World, c: CallId, t: TaskId) {
    c in w.calls && Driving(w.calls[c]) && w.calls[c].task == t
  }

  /** An active hold of a task that a restart left in `created`, with no call driving it. */
  ghost predicate Stranded(w: World, h: HoldId) {
    && h in w.ledger.holds && w.ledger.holds[h].taskId.Some?
    && var t := w.ledger.holds[h].taskId.value;
       t in w.db.tasks && w.db.tasks[t].status == Created && forall c :: !Drives(w, c, t)
  }

  ghost predicate HoldsConserved(w: World) {
    && (forall c :: c in w.calls ==> CallOk(w, c))
    && (forall c, d, t :: Drives(w, c, t) && Drives(w, d, t) ==> c == d)
    && (forall c, d, h :: Owns(w, c, h) && Owns(w, d, h) ==> c == d)
    && (forall h :: IsActive(w.ledger, h) ==> Stranded(w, h) || exists c :: Owns(w, c, h))
  }

  // ---------------------------------------------------------------- one call's segment at a time

  /** What a segment of call `c` may touch: its own entry, at most one task and at most one hold. */
  ghost predicate Touches(w: World, w': World, c: CallId, t: Option<TaskId>, h: Option<HoldId>) {
    && (forall d :: d != c ==> Lookup(w'.calls, d) == Lookup(w.calls, d))
    && (forall u :: t != Some(u) ==> Lookup(w'.db.tasks, u) == Lookup(w.db.tasks, u))
    && (forall k :: h != Some(k) ==> Lookup(w'.ledger.holds, k) == Lookup(w.ledger.holds, k))
  }

  /** The touched task and hold are the call's own. */
  ghost predicate OwnTouch(w: World, c: CallId, t: Option<TaskId>, h: Option<HoldId>) {
    && (t.Some? ==> forall d :: d != c ==> !Drives(w, d, t.value))
    && (h.Some? ==> forall d :: d != c ==> !Owns(w, d, h.value))
    && (forall k :: Owns(w, c, k) ==> h == Some(k))
    && (t.Some? && t.value in w.db.tasks && w.db.tasks[t.value].status == Created ==> Drives(w, c, t.value))
  }

  lemma OthersSame(w: World, w': World, c: CallId, t: Option<TaskId>, h: Option<HoldId>)
    requires Touches(w, w', c, t, h)
    ensures forall d, u :: d != c ==> (Drives(w', d, u) <==> Drives(w, d, u))
    ensures forall d, k :: d != c ==> (Owns(w', d, k) <==> Owns(w, d, k))
  {
    forall d, u | d != c ensures Drives(w', d, u) <==> Drives(w, d, u) {
      assert Lookup(w'.calls, d) == Lookup(w.calls, d);
    }
    forall d, k | d != c ensures Owns(w', d, k) <==> Owns(w, d, k) {
      assert Lookup(w'.calls, d) == Lookup(w.calls, d);
    }
  }

  lemma StrandedStays(w: World, w': World, c: CallId, t: Option<TaskId>, h: Option<HoldId>, k: HoldId)
    requires Touches(w, w', c, t, h) && OwnTouch(w, c, t, h)
    requires Stranded(w, k) && h != Some(k)
    requires forall u :: Drives(w', c, u) ==> t == Some(u)
    ensures Stranded(w', k)
  {
    OthersSame(w, w', c, t, h);
    var u := w.ledger.holds[k].taskId.value;
    assert !Drives(w, c, u);
    assert t != Some(u);
    assert Lookup(w'.db.tasks, u) == Lookup(w.db.tasks, u);
    assert Lookup(w'.ledger.holds, k) == Lookup(w.ledger.holds, k);
    forall d ensures !Drives(w', d, u) {
      assert !Drives(w, d, u);
    }
  }

  /** A task that does not exist or has ended is driven by no call. */
  lemma NotDriven(w: World, t: TaskId)
    requires HoldsConserved(w)
    requires t in w.db.tasks ==> Terminal(w.db.tasks[t].status)
    ensures forall d :: !Drives(w, d, t)
  {
    forall d ensures !Drives(w, d, t) {
      if d in w.calls {
        assert CallOk(w, d);
      }
    }
  }

  /** A segment keeps conservation if what it touches is its own, and afterwards the hold is inactive
      or still owned by the call. */
  lemma SegmentConserves(w: World, w': World, c: CallId, t: Option<TaskId>, h: Option<HoldId>)
    requires HoldsConserved(w) && Touches(w, w', c, t, h) && OwnTouch(w, c, t, h)
    requires c in w'.calls ==> CallOk(w', c)
    requires forall u :: Drives(w', c, u) ==> t == Some(u)
    requires forall k :: Owns(w', c, k) ==> h == Some(k)
    requires h.Some? && IsActive(w'.ledger, h.value) ==> Owns(w', c, h.value)
    ensures HoldsConserved(w')
  {
    OthersSame(w, w', c, t, h);
    forall d | d in w'.calls ensures CallOk(w', d) {
      if d != c {
        OtherCallOk(w, w', c, t, h, d);
      }
    }
    forall k | IsActive(w'.ledger, k) ensures Stranded(w', k) || exists d :: Owns(w', d, k) {
      if h != Some(k) {
        assert Lookup(w'.ledger.holds, k) == Lookup(w.ledger.holds, k);
        assert IsActive(w.ledger, k);
        if Stranded(w, k) {
          StrandedStays(w, w', c, t, h, k);
        } else {
          var d :| Owns(w, d, k);
          assert Owns(w', d, k);
        }
      }
    }
  }

  lemma OtherCallOk(w: World, w': World, c: CallId, t: Option<TaskId>, h: Option<HoldId>, d: CallId)
    requires HoldsConserved(w) && Touches(w, w', c, t, h) && OwnTouch(w, c, t, h)
    requires d != c && d in w'.calls
    ensures CallOk(w', d)
  {
    assert Lookup(w'.calls, d) == Lookup(w.calls, d);
    assert CallOk(w, d);
    var call := w.calls[d];
    if Driving(call) {
      assert Drives(w, d, call.task);
      assert Lookup(w'.db.tasks, call.task) == Lookup(w.db.tasks, call.task);
    }
    if Owning(call) {
      assert Owns(w, d, call.hold.value);
      assert Lookup(w'.ledger.holds, call.hold.value) == Lookup(w.ledger.holds, call.hold.value);
    }
  }

  /** A call that still owns whatever hold it has touches only its own task and hold. */
  lemma OwnTouchOf(w: World, c: CallId)
    requires HoldsConserved(w) && c in w.calls && w.calls[c].point != AwaitClosing
    ensures OwnTouch(w, c, if Driving(w.calls[c]) then Some(w.calls[c].task) else None, w.calls[c].hold)
  {
    var call := w.calls[c];
    assert CallOk(w, c);
    if Driving(call) {
      assert Drives(w, c, call.task);
    }
    if call.hold.Some? {
      assert Owns(w, c, call.hold.value);
    }
  }

  /** Leaving through the catch clause: the hold is released, the call is gone. */
  lemma CatchConserves(w: World, w1: World, c: CallId)
    requires HoldsConserved(w) && c in w.calls && w1.calls == w.calls && w1.ledger == w.ledger
    requires w.calls[c].point != AwaitClosing
    requires forall u :: !(Driving(w.calls[c]) && u == w.calls[c].task) ==> Lookup(w1.db.tasks, u) == Lookup(w.db.tasks, u)
    ensures HoldsConserved(Catch(w1, c))
  {
    OwnTouchOf(w, c);
    SegmentConserves(w, Catch(w1, c), c, if Driving(w.calls[c]) then Some(w.calls[c].task) else None, w.calls[c].hold);
  }

  /** Moving on to another await with the hold unchanged. */
  lemma AtConserves(w: World, w1: World, c: CallId, point: Point)
    requires HoldsConserved(w) && c in w.calls && w1.calls == w.calls && w1.ledger.holds == w.ledger.holds
    requires w.calls[c].point !in {AwaitClosing, AwaitAvailability}
    requires point !in {AwaitClosing, AwaitCancelClosing, AwaitAvailability}
    requires Driving(w.calls[c]) == Driving(w.calls[c].(point := point))
    requires forall u :: !(Driving(w.calls[c]) && u == w.calls[c].task) ==> Lookup(w1.db.tasks, u) == Lookup(w.db.tasks, u)
    requires Driving(w.calls[c]) ==> w.calls[c].task in w1.db.tasks && w1.db.tasks[w.calls[c].task].status in ExpectedStatuses(point)
    ensures HoldsConserved(At(w1, c, point))
  {
    OwnTouchOf(w, c);
    assert CallOk(w, c);
    SegmentConserves(w, At(w1, c, point), c, if Driving(w.calls[c]) then Some(w.calls[c].task) else None, w.calls[c].hold);
  }

  /** Settling the hold of a driven task that has just become terminal. */
  lemma SettledConserves(w: World, w1: World, c: CallId, provider: Provider, usage: TurnUsage)
    requires HoldsConserved(w) && c in w.calls && w1.calls == w.calls && w1.ledger == w.ledger
    requires WellFormed(w.ledger) && Driving(w.calls[c])
    requires forall u :: u != w.calls[c].task ==> Lookup(w1.db.tasks, u) == Lookup(w.db.tasks, u)
    requires w.calls[c].task in w1.db.tasks
    ensures HoldsConserved(Settled(w1, c, provider, usage))
  {
    var call := w.calls[c];
    var w' := Settled(w1, c, provider, usage);
    OwnTouchOf(w, c);
    assert CallOk(w, c);
    if w' == Catch(w1, c) {
      CatchConserves(w, w1, c);
    } else {
      assert w'.calls == w.calls[c := call.(point := AwaitClosing)];
      SegmentConserves(w, w', c, Some(call.task), call.hold);
    }
  }

  lemma TransitionTouchesOne(db: Tables, t: TaskId, expected: set<Status>, next: Status, now: int)
    ensures var r := Transition(db, t, expected, next, now);
            r.Ok? ==> t in r.value.tasks && forall u :: u != t ==> Lookup(r.value.tasks, u) == Lookup(db.tasks, u)
  {
  }

  lemma DrivenIsLive(w: World, c: CallId)
    requires HoldsConserved(w) && c in w.calls && Driving(w.calls[c])
    ensures w.calls[c].task in w.db.tasks && !Terminal(w.db.tasks[w.calls[c].task].status)
  {
    assert CallOk(w, c);
  }

  /** Ending the turn of a driven task, whatever the outcome. */
  lemma EndTurnConserves(w: World, w1: World, c: CallId, outcome: Outcome, provider: Provider, usage: TurnUsage, now: int)
    requires HoldsConserved(w) && WellFormed(w.ledger)
    requires c in w.calls && Driving(w.calls[c]) && w1.calls == w.calls && w1.ledger == w.ledger && w1.db == w.db
    ensures HoldsConserved(EndTurn(w1, c, outcome, provider, usage, now))
  {
    var t := w.calls[c].task;
    DrivenIsLive(w, c);
    var moved := Transition(w.db, t, {w.db.tasks[t].status}, outcome, now);
    if moved.Ok? {
      TransitionTouchesOne(w.db, t, {w.db.tasks[t].status}, outcome, now);
      SettledConserves(w, w1.(db := moved.value), c, provider, usage);
    } else {
      CatchConserves(w, w1, c);
    }
  }

  // ---------------------------------------------------------------- every event

  lemma ReservedConserves(w: World, c: CallId, call: Call, taskClass: TaskClass, hold: HoldId)
    requires HoldsConserved(w)
    requires call.kind != CancelCall && !call.cancelled && call.hold.None? && call.point in {AwaitThread, AwaitReservation}
    requires c in w.calls ==> w.calls[c].point == AwaitAvailability
    ensures HoldsConserved(Coordinator.Reserved(w, call, c, taskClass, hold))
  {
    if c in w.calls {
      assert CallOk(w, c);
    }
    if w.capacity.None? {
      NewCallConserves(w, w.ledger, c, Some(call), None);
    } else {
      var r := Reserve(w.ledger, w.capacity.value, call.provider, taskClass, hold);
      if r.Err? {
        NewCallConserves(w, w.ledger, c, None, None);
      } else {
        NewCallConserves(w, r.value, c, Some(call.(hold := Some(hold))), Some(hold));
      }
    }
  }

  /** Replacing a call that owns nothing by one that owns at most a new hold. */
  lemma NewCallConserves(w: World, ledger: Ledger, c: CallId, call: Option<Call>, hold: Option<HoldId>)
    requires HoldsConserved(w)
    requires c in w.calls ==> w.calls[c].hold.None? && !Driving(w.calls[c])
    requires call.Some? ==>
               && call.value.kind != CancelCall && !call.value.cancelled && call.value.hold == hold
               && !Driving(call.value) && call.value.point !in {AwaitClosing, AwaitCancelClosing}
               && (hold.Some? ==> call.value.point != AwaitAvailability)
    requires hold.Some? ==>
               && call.Some? && hold.value !in w.ledger.holds
               && IsActive(ledger, hold.value) && ledger.holds[hold.value].taskId.None?
    requires forall k :: hold != Some(k) ==> Lookup(ledger.holds, k) == Lookup(w.ledger.holds, k)
    ensures HoldsConserved(w.(ledger := ledger, calls := if call.Some? then w.calls[c := call.value] else w.calls - {c}))
  {
    if hold.Some? {
      forall d ensures !Owns(w, d, hold.value) {
        if d in w.calls {
          assert CallOk(w, d);
        }
      }
    }
    var w' := w.(ledger := ledger, calls := if call.Some? then w.calls[c := call.value] else w.calls - {c});
    SegmentConserves(w, w', c, None, hold);
  }

  lemma WorktreeCreatedConserves(w: World, c: CallId, worktree: Worktree, projectActive: bool, now: int)
    requires HoldsConserved(w) && Suspended(w, c, {AwaitWorktree})
    ensures HoldsConserved(WorktreeCreated(w, c, worktree, projectActive, now))
  {
    var call := w.calls[c];
    var t := call.task;
    assert CallOk(w, c);
    var w' := WorktreeCreated(w, c, worktree, projectActive, now);
    var r := CreateWithWorktree(w.db, t, projectActive, call.provider, call.threadId, worktree, now);
    if r.Err? {
      AtConserves(w, w, c, AwaitWorktreeRemoval);
    } else {
      NotDriven(w, t);
      if call.hold.Some? {
        assert Owns(w, c, call.hold.value);
        assert AttachTask(w.ledger, call.hold.value, t).Ok?;
      }
      assert Driving(w'.calls[c]);
      SegmentConserves(w, w', c, Some(t), call.hold);
    }
  }

  lemma ReopenedShape(w: World, c: CallId, now: int)
    requires c in w.calls && ReopenForContinuation(w.db, w.calls[c].task, now).Ok?
    requires w.calls[c].hold.Some? ==> AttachTask(w.ledger, w.calls[c].hold.value, w.calls[c].task).Ok?
    ensures var call := w.calls[c];
            var w' := Reopened(w, c, now);
            && Touches(w, w', c, Some(call.task), call.hold)
            && w'.calls == w.calls[c := call.(point := AwaitResumedRenderer)]
            && call.task in w'.db.tasks && w'.db.tasks[call.task].status == Starting
            && (call.hold.Some? ==>
                  IsActive(w'.ledger, call.hold.value) && w'.ledger.holds[call.hold.value].taskId == Some(call.task))
  {
  }

  lemma ReopenedConserves(w: World, c: CallId, now: int)
    requires HoldsConserved(w) && Suspended(w, c, {AwaitReservation})
    ensures HoldsConserved(Reopened(w, c, now))
  {
    var call := w.calls[c];
    assert CallOk(w, c);
    if ReopenForContinuation(w.db, call.task, now).Err? {
      CatchConserves(w, w, c);
    } else {
      NotDriven(w, call.task);
      if call.hold.Some? {
        assert Owns(w, c, call.hold.value);
      }
      ReopenedShape(w, c, now);
      SegmentConserves(w, Reopened(w, c, now), c, Some(call.task), call.hold);
    }
  }

  lemma NowRunningConserves(w: World, w1: World, c: CallId, now: int)
    requires HoldsConserved(w) && Suspended(w, c, {AwaitProvider})
    requires w1.calls == w.calls && w1.ledger == w.ledger && w1.db.tasks == w.db.tasks
    ensures HoldsConserved(NowRunning(w1, c, now))
  {
    var t := w.calls[c].task;
    assert CallOk(w, c);
    var moved := Transition(w1.db, t, {Starting}, Running, now);
    AtConserves(w, w1.(db := moved.value), c, AwaitRunningCard);
  }

  lemma ProviderReadyConserves(w: World, c: CallId, started: Option<Session>, now: int)
    requires HoldsConserved(w) && WellFormed(w.ledger) && Suspended(w, c, {AwaitProvider})
    ensures HoldsConserved(Step(w, ProviderReady(c, started, now)))
  {
    var call := w.calls[c];
    var t := call.task;
    assert CallOk(w, c);
    var w1 := w.(startingTasks := w.startingTasks - {t});
    if started.None? {
      EndTurnConserves(w, w1, c, Failed, call.provider, TurnUsage(None, 0, true), now);
    } else if call.kind == StartCall {
      var attached := AttachProviderSession(w1.db, t, started.value);
      if attached.Err? {
        CatchConserves(w, w1, c);
      } else {
        NowRunningConserves(w, w1.(db := attached.value), c, now);
      }
    } else if call.session != started {
      EndTurnConserves(w, w1, c, Failed, call.provider, TurnUsage(None, 0, true), now);
    } else {
      NowRunningConserves(w, w1, c, now);
    }
  }

  lemma ResumedConserves(w: World, c: CallId, now: int)
    requires HoldsConserved(w) && WellFormed(w.ledger) && c in w.calls
    ensures HoldsConserved(Resumed(w, c, now))
  {
    var call := w.calls[c];
    assert CallOk(w, c);
    match call.point
    case AwaitWorktreeRemoval => CatchConserves(w, w, c);
    case AwaitRenderer =>
      var moved := Transition(w.db, call.task, {Created}, Starting, now);
      AtConserves(w, w.(db := moved.value), c, AwaitStartingCard);
    case AwaitStartingCard =>
      AtConserves(w, w.(startingTasks := w.startingTasks[call.task := c]), c, AwaitProvider);
      assert Resumed(w, c, now) == At(w.(startingTasks := w.startingTasks[call.task := c]), c, AwaitProvider);
    case AwaitReservation => ReopenedConserves(w, c, now);
    case AwaitResumedRenderer => AtConserves(w, w, c, AwaitProvider);
    case AwaitRunningCard => AtConserves(w, w, c, AwaitCompletion);
    case AwaitClosing => SegmentConserves(w, Resumed(w, c, now), c, None, None);
    case AwaitThread =>
    case AwaitWorktree =>
    case AwaitAvailability =>
    case AwaitProvider =>
    case AwaitCompletion =>
  }

  /** A decision only moves a running task to waiting and back, which its driver allows for. */
  lemma DecisionConserves(w: World, t: TaskId, from: Status, next: Status, now: int)
    requires HoldsConserved(w)
    requires (from == Running && next == WaitingForUser) || (from == WaitingForUser && next == Running)
    ensures var r := Transition(w.db, t, {from}, next, now);
            r.Ok? ==> HoldsConserved(w.(db := r.value))
  {
    var r := Transition(w.db, t, {from}, next, now);
    if r.Ok? {
      var w' := w.(db := r.value);
      forall c | c in w'.calls ensures CallOk(w', c) {
        assert CallOk(w, c);
      }
      forall c, u ensures Drives(w', c, u) <==> Drives(w, c, u) {
      }
      forall c, k ensures Owns(w', c, k) <==> Owns(w, c, k) {
      }
      forall k | IsActive(w'.ledger, k) ensures Stranded(w', k) || exists d :: Owns(w', d, k) {
        assert IsActive(w.ledger, k);
        if !Stranded(w, k) {
          var d :| Owns(w, d, k);
          assert Owns(w', d, k);
        }
      }
    }
  }

  /** After a completed restart recovery the only active holds belong to tasks still in `created`. */
  lemma RecoveryLeavesOnlyCreated(w: World, now: int)
    ensures var w' := Coordinator.Recovered(w, now);
            forall h :: IsActive(w'.ledger, h) ==>
              && w'.ledger.holds[h].taskId.Some?
              && w'.ledger.holds[h].taskId.value in w'.db.tasks
              && w'.db.tasks[w'.ledger.holds[h].taskId.value].status == Created
    ensures forall t :: t in Coordinator.Recovered(w, now).db.tasks ==>
              Coordinator.Recovered(w, now).db.tasks[t].status ==
                if Recoverable(w.db.tasks[t].status) then Interrupted else w.db.tasks[t].status
    ensures HoldsConserved(Coordinator.Recovered(w, now))
  {
    var w' := Coordinator.Recovered(w, now);
    forall h | IsActive(w'.ledger, h) ensures Stranded(w', h) {
      assert IsActive(w.ledger, h) && !Releasable(w'.db, w.ledger.holds[h]);
    }
  }

  lemma WorktreeClosedConserves(w: World, t: TaskId, now: int)
    requires HoldsConserved(w)
    ensures var r := MarkWorktreeRemoved(w.db, t, now);
            r.Ok? ==> HoldsConserved(w.(db := r.value))
  {
    var r := MarkWorktreeRemoved(w.db, t, now);
    if r.Ok? {
      SameTasksConserve(w, w.(db := r.value));
    }
  }

  lemma SameTasksConserve(w: World, w': World)
    requires HoldsConserved(w)
    requires w'.calls == w.calls && w'.ledger == w.ledger && w'.db.tasks == w.db.tasks
    ensures HoldsConserved(w')
  {
    forall c | c in w'.calls ensures CallOk(w', c) {
      assert CallOk(w, c);
    }
    forall c, u ensures Drives(w', c, u) <==> Drives(w, c, u) {
    }
    forall c, k ensures Owns(w', c, k) <==> Owns(w, c, k) {
    }
    forall k | IsActive(w'.ledger, k) ensures Stranded(w', k) || exists d :: Owns(w', d, k) {
      assert IsActive(w.ledger, k);
      if !Stranded(w, k) {
        var d :| Owns(w, d, k);
        assert Owns(w', d, k);
      }
    }
  }

  lemma BeginConserves(w: World, e: Event)
    requires HoldsConserved(w) && WellFormed(w.ledger)
    requires e.StartTask? || e.ContinueTask? || e.AvailabilityChecked?
    ensures HoldsConserved(Step(w, e))
  {
    match e
    case StartTask(c, task, provider, threadId, taskClass, hold) =>
      if c !in w.calls {
        ReservedConserves(w, c, Call(StartCall, task, provider, threadId, None, None, AwaitThread, false), taskClass, hold);
      }
    case ContinueTask(c, task) =>
      if Step(w, e) != w {
        NewCallConserves(w, w.ledger, c, Some(Step(w, e).calls[c]), None);
      }
    case AvailabilityChecked(c, ok, taskClass, hold) =>
      if Suspended(w, c, {AwaitAvailability}) {
        assert CallOk(w, c);
        if ok {
          ReservedConserves(w, c, w.calls[c].(point := AwaitReservation), taskClass, hold);
        } else {
          NewCallConserves(w, w.ledger, c, None, None);
        }
      }
  }

  lemma CreateConserves(w: World, e: Event)
    requires HoldsConserved(w) && WellFormed(w.ledger)
    requires e.ThreadReady? || e.WorktreeReady?
    ensures HoldsConserved(Step(w, e))
  {
    match e
    case ThreadReady(c, ok) =>
      if Suspended(w, c, {AwaitThread}) {
        if ok { AtConserves(w, w, c, AwaitWorktree); } else { CatchConserves(w, w, c); }
      }
    case WorktreeReady(c, created, projectActive, now) =>
      if Suspended(w, c, {AwaitWorktree}) {
        if created.None? { CatchConserves(w, w, c); }
        else { WorktreeCreatedConserves(w, c, created.value, projectActive, now); }
      }
  }

  lemma TurnCompletedConserves(w: World, c: CallId, outcome: Outcome, provider: Provider, usage: TurnUsage, now: int)
    requires HoldsConserved(w) && WellFormed(w.ledger) && Consistent(w.db) && Suspended(w, c, {AwaitCompletion})
    ensures HoldsConserved(Finalize(w, c, outcome, provider, usage, now))
  {
    assert CallOk(w, c);
    assert TaskConsistent(w.db, w.calls[c].task);
    EndTurnConserves(w, w, c, outcome, provider, usage, now);
  }

  /** No cancellation, and no restart whose recovery was cut short. */
  predicate Orderly(e: Event) { !e.CancelTask? && !e.CrashedRestart? }

  /** Every event but a cancellation and a restart whose recovery was itself cut short keeps the holds
      conserved. */
  lemma StepConserves(w: World, e: Event)
    requires HoldsConserved(w) && WellFormed(w.ledger) && Consistent(w.db)
    requires Orderly(e)
    ensures HoldsConserved(Step(w, e))
  {
    match e
    case StartTask(_, _, _, _, _, _) => BeginConserves(w, e);
    case ContinueTask(_, _) => BeginConserves(w, e);
    case AvailabilityChecked(_, _, _, _) => BeginConserves(w, e);
    case ThreadReady(_, _) => CreateConserves(w, e);
    case WorktreeReady(_, _, _, _) => CreateConserves(w, e);
    case ProviderReady(c, started, now) =>
      if Suspended(w, c, {AwaitProvider}) { ProviderReadyConserves(w, c, started, now); }
    case TurnCompleted(c, outcome, provider, usage, now) =>
      if Suspended(w, c, {AwaitCompletion}) { TurnCompletedConserves(w, c, outcome, provider, usage, now); }
    case Resume(c, now) =>
      if c in w.calls { ResumedConserves(w, c, now); }
    case DecisionOpened(task, now) => DecisionConserves(w, task, Running, WaitingForUser, now);
    case DecisionClosed(task, now) => DecisionConserves(w, task, WaitingForUser, Running, now);
    case WorktreeClosed(task, now) => WorktreeClosedConserves(w, task, now);
    case Shutdown => SameTasksConserve(w, Step(w, e));
    case Restart(now) => RecoveryLeavesOnlyCreated(w, now);
  }

  // ---------------------------------------------------------------- whole runs

  predicate OrderlyRun(es: seq<Event>) { forall e :: e in es ==> Orderly(e) }

  /** In every orderly run the holds stay conserved, whatever the interleaving. */
  lemma {:induction false} RunConserves(w: World, es: seq<Event>)
    requires Balanced(w.ledger) && Consistent(w.db) && HoldsConserved(w) && OrderlyRun(es)
    ensures HoldsConserved(Run(w, es))
    decreases |es|
  {
    if es != [] {
      StepBalanced(w, es[0]);
      StepKeeps(w, es[0]);
      StepConserves(w, es[0]);
      RunConserves(Step(w, es[0]), es[1..]);
    }
  }

  /** A completed restart puts conservation back whatever came before it, cancellations included. */
  lemma RestartThenConserved(w: World, now: int, es: seq<Event>)
    requires Balanced(w.ledger) && Consistent(w.db) && OrderlyRun(es)
    ensures HoldsConserved(Run(w, [Restart(now)] + es))
  {
    var first := Restart(now);
    StepBalanced(w, first);
    StepKeeps(w, first);
    RecoveryLeavesOnlyCreated(w, now);
    RunConserves(Step(w, first), es);
    assert ([first] + es)[0] == first && ([first] + es)[1..] == es;
  }

  /** With no call in flight, only tasks stuck in `created` still hold capacity. */
  lemma QuiescentHolds(w: World, es: seq<Event>, h: HoldId)
    requires Balanced(w.ledger) && Consistent(w.db) && HoldsConserved(w) && OrderlyRun(es)
    requires Run(w, es).calls == map[] && IsActive(Run(w, es).ledger, h)
    ensures Stranded(Run(w, es), h)
  {
    RunConserves(w, es);
  }

  // ---------------------------------------------------------------- a hold is settled at most once

  /** Settled holds are frozen, an attached hold keeps its task, and no hold disappears. */
  ghost predicate Frozen(l: Ledger, l': Ledger) {
    forall h :: h in l.holds ==>
      && h in l'.holds
      && (l.holds[h].status != HoldActive ==> l'.holds[h] == l.holds[h])
      && (l.holds[h].taskId.Some? ==> l'.holds[h].taskId == l.holds[h].taskId)
  }

  lemma CompleteFrozen(l: Ledger, id: HoldId, usage: TurnUsage)
    requires WellFormed(l)
    ensures Frozen(l, Complete(l, id, usage))
  {
  }

  lemma CatchFrozen(w: World, c: CallId)
    requires c in w.calls
    ensures Frozen(w.ledger, Catch(w, c).ledger)
  {
  }

  lemma SettledFrozen(w: World, c: CallId, provider: Provider, usage: TurnUsage)
    requires c in w.calls && w.calls[c].task in w.db.tasks && WellFormed(w.ledger)
    ensures Frozen(w.ledger, Settled(w, c, provider, usage).ledger)
  {
    CatchFrozen(w, c);
    if w.calls[c].hold.Some? {
      CompleteFrozen(w.ledger, w.calls[c].hold.value, usage.(failed := w.db.tasks[w.calls[c].task].status == Failed));
    }
  }

  lemma EndTurnFrozen(w: World, c: CallId, outcome: Outcome, provider: Provider, usage: TurnUsage, now: int)
    requires c in w.calls && WellFormed(w.ledger)
    ensures Frozen(w.ledger, EndTurn(w, c, outcome, provider, usage, now).ledger)
  {
    CatchFrozen(w, c);
    var t := w.calls[c].task;
    if t in w.db.tasks {
      if Terminal(w.db.tasks[t].status) {
        SettledFrozen(w, c, provider, usage);
      } else {
        var moved := Transition(w.db, t, {w.db.tasks[t].status}, outcome, now);
        if moved.Ok? {
          SettledFrozen(w.(db := moved.value), c, provider, usage);
        }
      }
    }
  }

  lemma ReleaseFrozen(l: Ledger, id: Option<HoldId>)
    ensures Frozen(l, TryRelease(l, id))
  {
  }

  lemma ProviderReadyFrozen(w: World, c: CallId, started: Option<Session>, now: int)
    requires Suspended(w, c, {AwaitProvider}) && WellFormed(w.ledger)
    ensures Frozen(w.ledger, Step(w, ProviderReady(c, started, now)).ledger)
  {
    var w' := w.(startingTasks := w.startingTasks - {w.calls[c].task});
    EndTurnFrozen(w', c, Failed, w.calls[c].provider, TurnUsage(None, 0, true), now);
    if started.Some? {
      ProviderStartedLedger(w', c, started.value, now);
      ReleaseFrozen(w.ledger, w.calls[c].hold);
    }
  }

  lemma AttachedFrozen(w: World, c: CallId)
    requires c in w.calls
    ensures Attached(w, c).Some? ==> c in Attached(w, c).value.calls && Frozen(w.ledger, Attached(w, c).value.ledger)
  {
  }

  lemma WorktreeCreatedFrozen(w: World, c: CallId, worktree: Worktree, projectActive: bool, now: int)
    requires c in w.calls
    ensures Frozen(w.ledger, WorktreeCreated(w, c, worktree, projectActive, now).ledger)
  {
    var call := w.calls[c];
    var r := CreateWithWorktree(w.db, call.task, projectActive, call.provider, call.threadId, worktree, now);
    if r.Ok? {
      var w' := w.(db := r.value);
      AttachedFrozen(w', c);
      var failed := Transition(r.value, call.task, {Created}, Failed, now);
      CatchFrozen(if failed.Ok? then w'.(db := failed.value) else w', c);
    }
  }

  lemma ReopenedFrozen(w: World, c: CallId, now: int)
    requires c in w.calls
    ensures Frozen(w.ledger, Reopened(w, c, now).ledger)
  {
    CatchFrozen(w, c);
    var r := ReopenForContinuation(w.db, w.calls[c].task, now);
    if r.Ok? {
      AttachedFrozen(w.(db := r.value), c);
      CatchFrozen(w.(db := r.value), c);
    }
  }

  lemma CancelReleasedFrozen(w: World, t: TaskId)
    ensures Frozen(w.ledger, CancelReleased(w, t).ledger)
  {
  }

  lemma ResumedFrozen(w: World, c: CallId, now: int)
    requires c in w.calls
    ensures Frozen(w.ledger, Resumed(w, c, now).ledger)
  {
    CatchFrozen(w, c);
    if w.calls[c].point == AwaitReservation {
      ReopenedFrozen(w, c, now);
    } else if w.calls[c].point == AwaitCancelClosing {
      CancelReleasedFrozen(Ended(w.(activeRenderers := w.activeRenderers - {w.calls[c].task}), c), w.calls[c].task);
    }
  }

  lemma ReservedFrozen(w: World, call: Call, c: CallId, taskClass: TaskClass, hold: HoldId)
    ensures Frozen(w.ledger, Reserved(w, call, c, taskClass, hold).ledger)
  {
  }

  lemma CancellingFrozen(w: World, c: CallId, t: TaskId, now: int)
    ensures Frozen(w.ledger, Cancelling(w, c, t, now).ledger)
  {
    if t in w.activeReservations {
      ReleaseFrozen(w.ledger, Some(w.activeReservations[t]));
    }
  }

  lemma TurnEventFrozen(w: World, e: Event)
    requires WellFormed(w.ledger) && (e.ProviderReady? || e.WorktreeReady? || e.TurnCompleted? || e.Resume?)
    ensures Frozen(w.ledger, Step(w, e).ledger)
  {
    if e.c in w.calls {
      match e
      case ProviderReady(c, started, now) =>
        if Suspended(w, c, {AwaitProvider}) { ProviderReadyFrozen(w, c, started, now); }
      case WorktreeReady(c, created, projectActive, now) =>
        if created.Some? { WorktreeCreatedFrozen(w, c, created.value, projectActive, now); } else { CatchFrozen(w, c); }
      case TurnCompleted(c, outcome, provider, usage, now) => EndTurnFrozen(w, c, outcome, provider, usage, now);
      case Resume(c, now) => ResumedFrozen(w, c, now);
    }
  }

  /** Over any event, cancellations and restarts included, a hold that has been released or consumed
      never changes again, and an attached hold stays with its task. */
  lemma StepFrozen(w: World, e: Event)
    requires WellFormed(w.ledger)
    ensures Frozen(w.ledger, Step(w, e).ledger)
  {
    if e.ProviderReady? || e.WorktreeReady? || e.TurnCompleted? || e.Resume? {
      TurnEventFrozen(w, e);
    } else {
      match e
      case StartTask(c, task, provider, threadId, taskClass, hold) =>
        ReservedFrozen(w, Call(StartCall, task, provider, threadId, None, None, AwaitThread, false), c, taskClass, hold);
      case AvailabilityChecked(c, _, taskClass, hold) =>
        if c in w.calls { ReservedFrozen(w, w.calls[c].(point := AwaitReservation), c, taskClass, hold); }
      case ThreadReady(c, _) => if c in w.calls { CatchFrozen(w, c); }
      case CancelTask(c, task, now) => CancellingFrozen(w, c, task, now);
      case _ =>
    }
  }

  lemma {:induction false} RunFrozen(w: World, es: seq<Event>)
    requires Balanced(w.ledger)
    ensures Frozen(w.ledger, Run(w, es).ledger)
    decreases |es|
  {
    if es != [] {
      StepBalanced(w, es[0]);
      StepFrozen(w, es[0]);
      RunFrozen(Step(w, es[0]), es[1..]);
    }
  }
}
