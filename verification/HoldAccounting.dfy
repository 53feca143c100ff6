/**
 What stays true of calls, holds and the coordinator's maps over every run from an empty store,
 cancellations and restarts included. One consequence: attaching a reserved hold never fails.
 */
module HoldAccounting {
  import opened Common
  import opened TaskStore
  import opened Usage
  import opened Coordinator
  import opened CoordinatorSafety
  import opened HoldConservation

  /** The awaits a call of each kind can be suspended at. */
  predicate KindFits(kind: Kind, p: Point) {
    match kind
    case StartCall => p in {AwaitThread, AwaitWorktree, AwaitWorktreeRemoval, AwaitRenderer, AwaitStartingCard,
                            AwaitProvider, AwaitRunningCard, AwaitCompletion, AwaitClosing}
    case ContinueCall => p in {AwaitAvailability, AwaitReservation, AwaitResumedRenderer,
                               AwaitProvider, AwaitRunningCard, AwaitCompletion, AwaitClosing}
    case CancelCall => p == AwaitCancelClosing
  }

  /** The call has reserved but not yet attached its hold. */
  predicate Pending(p: Point) { p in {AwaitThread, AwaitWorktree, AwaitWorktreeRemoval, AwaitReservation} }

  ghost predicate HoldFits(l: Ledger, call: Call) {
    call.hold.Some? ==>
      && call.hold.value in l.holds
      && (Pending(call.point) ==> IsActive(l, call.hold.value) && l.holds[call.hold.value].taskId.None?)
      && (!Pending(call.point) ==> l.holds[call.hold.value].taskId == Some(call.task))
  }

  /** With a usage service every call has a hold from its reservation on; without one none has. */
  ghost predicate CallFits(w: World, c: CallId)
    requires c in w.calls
  {
    var call := w.calls[c];
    && KindFits(call.kind, call.point) && HoldFits(w.ledger, call)
    && (call.hold.Some? <==> w.capacity.Some? && call.point !in {AwaitAvailability, AwaitCancelClosing})
  }

  ghost predicate Registered(w: World, u: TaskId)
    requires u in w.activeReservations
  {
    w.activeReservations[u] in w.ledger.holds && w.ledger.holds[w.activeReservations[u]].taskId == Some(u)
  }

  ghost predicate Starts(w: World, u: TaskId)
    requires u in w.startingTasks
  {
    Suspended(w, w.startingTasks[u], {AwaitProvider}) && w.calls[w.startingTasks[u]].task == u
  }

  ghost predicate Accounted(w: World) {
    && (forall c :: c in w.calls ==> CallFits(w, c))
    && (forall c, d :: c in w.calls && d in w.calls && c != d && w.calls[c].hold.Some? ==> w.calls[c].hold != w.calls[d].hold)
    && (forall u :: u in w.activeReservations ==> Registered(w, u))
    && (forall u :: u in w.startingTasks ==> Starts(w, u))
  }

  // ---------------------------------------------------------------- one segment

  /** Attached holds keep their task, and only `own` changes among those not attached yet. */
  ghost predicate Settles(l: Ledger, l': Ledger, own: Option<HoldId>) {
    forall h :: h in l.holds ==>
      && h in l'.holds
      && (l.holds[h].taskId.Some? ==> l'.holds[h].taskId == l.holds[h].taskId)
      && (l.holds[h].taskId.None? && own != Some(h) ==> l'.holds[h] == l.holds[h])
  }

  /** A segment of call `c` that changes no other call, and of pending holds at most `own`. */
  lemma SegmentAccounted(w: World, w': World, c: CallId, own: Option<HoldId>)
    requires Accounted(w) && w'.capacity == w.capacity && Settles(w.ledger, w'.ledger, own)
    requires forall d :: d != c ==> Lookup(w'.calls, d) == Lookup(w.calls, d)
    requires own.Some? ==> forall d :: d in w.calls && d != c ==> w.calls[d].hold != own
    requires c in w'.calls ==> CallFits(w', c) && (w'.calls[c].hold.Some? ==> w'.calls[c].hold == own)
    requires forall u :: u in w'.activeReservations ==>
               Lookup(w.activeReservations, u) == Some(w'.activeReservations[u]) || Registered(w', u)
    requires forall u :: u in w'.startingTasks ==>
               (Lookup(w.startingTasks, u) == Some(w'.startingTasks[u]) && w'.startingTasks[u] != c) || Starts(w', u)
    ensures Accounted(w')
  {
    forall d | d in w'.calls ensures CallFits(w', d) {
      if d != c {
        assert Lookup(w'.calls, d) == Lookup(w.calls, d);
        assert CallFits(w, d);
      }
    }
    forall d, e | d in w'.calls && e in w'.calls && d != e && w'.calls[d].hold.Some? ensures w'.calls[d].hold != w'.calls[e].hold {
      assert d != c ==> Lookup(w'.calls, d) == Lookup(w.calls, d);
      assert e != c ==> Lookup(w'.calls, e) == Lookup(w.calls, e);
    }
    forall u | u in w'.activeReservations ensures Registered(w', u) {
      if Lookup(w.activeReservations, u) == Some(w'.activeReservations[u]) {
        assert Registered(w, u);
      }
    }
    forall u | u in w'.startingTasks ensures Starts(w', u) {
      if Lookup(w.startingTasks, u) == Some(w'.startingTasks[u]) && w'.startingTasks[u] != c {
        assert Starts(w, u);
        assert Lookup(w'.calls, w.startingTasks[u]) == Lookup(w.calls, w.startingTasks[u]);
      }
    }
  }

  lemma OwnHold(w: World, c: CallId)
    requires Accounted(w) && c in w.calls
    ensures CallFits(w, c)
    ensures w.calls[c].hold.Some? ==> forall d :: d in w.calls && d != c ==> w.calls[d].hold != w.calls[c].hold
    ensures w.calls[c].point != AwaitProvider ==> forall u :: u in w.startingTasks ==> w.startingTasks[u] != c
    ensures forall u :: u in w.startingTasks && w.startingTasks[u] == c ==> u == w.calls[c].task
  {
    forall u | u in w.startingTasks ensures w.startingTasks[u] == c ==> w.calls[c].point == AwaitProvider && u == w.calls[c].task {
      assert Starts(w, u);
    }
  }

  /** The calls and maps are as before, except that the call no longer counts as starting. */
  ghost predicate SameMaps(w: World, w1: World, c: CallId)
    requires c in w.calls
  {
    && w1.calls == w.calls && w1.ledger == w.ledger && w1.capacity == w.capacity
    && w1.activeReservations == w.activeReservations
    && w1.startingTasks == (if w.calls[c].point == AwaitProvider then w.startingTasks - {w.calls[c].task} else w.startingTasks)
  }

  lemma CatchAccounted(w: World, w1: World, c: CallId)
    requires Accounted(w) && c in w.calls && SameMaps(w, w1, c)
    ensures Accounted(Catch(w1, c))
  {
    OwnHold(w, c);
    SegmentAccounted(w, Catch(w1, c), c, w.calls[c].hold);
  }

  lemma EndedAccounted(w: World, w1: World, c: CallId)
    requires Accounted(w) && c in w.calls && SameMaps(w, w1, c)
    ensures Accounted(Ended(w1, c))
  {
    OwnHold(w, c);
    SegmentAccounted(w, Ended(w1, c), c, w.calls[c].hold);
  }

  lemma AtAccounted(w: World, w1: World, c: CallId, point: Point)
    requires Accounted(w) && c in w.calls && SameMaps(w, w1, c)
    requires KindFits(w.calls[c].kind, point) && Pending(point) == Pending(w.calls[c].point)
    requires w.calls[c].point !in {AwaitAvailability, AwaitCancelClosing} && point !in {AwaitAvailability, AwaitCancelClosing}
    ensures Accounted(At(w1, c, point))
  {
    OwnHold(w, c);
    SegmentAccounted(w, At(w1, c, point), c, w.calls[c].hold);
  }

  lemma SettledShape(w: World, c: CallId, provider: Provider, usage: TurnUsage)
    requires c in w.calls && w.calls[c].task in w.db.tasks && WellFormed(w.ledger)
    ensures var w' := Settled(w, c, provider, usage); w' == Catch(w, c) || Closes(w, w', c)
  {
  }

  /** The turn has settled its hold and only its card is left to close. */
  ghost predicate Closes(w: World, w': World, c: CallId)
    requires c in w.calls
  {
    && w'.calls == w.calls[c := w.calls[c].(point := AwaitClosing)]
    && w'.capacity == w.capacity && w'.startingTasks == w.startingTasks
    && w'.activeReservations == w.activeReservations - {w.calls[c].task}
    && Settles(w.ledger, w'.ledger, w.calls[c].hold)
  }

  lemma ClosesAccounted(w: World, w': World, c: CallId)
    requires Accounted(w) && c in w.calls && Driving(w.calls[c])
    requires w'.calls == w.calls[c := w.calls[c].(point := AwaitClosing)] && w'.capacity == w.capacity
    requires w'.startingTasks == (if w.calls[c].point == AwaitProvider then w.startingTasks - {w.calls[c].task} else w.startingTasks)
    requires w'.activeReservations == w.activeReservations - {w.calls[c].task}
    requires Settles(w.ledger, w'.ledger, w.calls[c].hold)
    ensures Accounted(w')
  {
    OwnHold(w, c);
    SegmentAccounted(w, w', c, w.calls[c].hold);
  }

  lemma SettledAccounted(w: World, w1: World, c: CallId, provider: Provider, usage: TurnUsage)
    requires Accounted(w) && c in w.calls && SameMaps(w, w1, c) && WellFormed(w.ledger)
    requires Driving(w.calls[c]) && w.calls[c].task in w1.db.tasks
    ensures Accounted(Settled(w1, c, provider, usage))
  {
    var w' := Settled(w1, c, provider, usage);
    OwnHold(w, c);
    SettledShape(w1, c, provider, usage);
    if w' == Catch(w1, c) {
      CatchAccounted(w, w1, c);
    } else {
      ClosesAccounted(w, w', c);
    }
  }

  lemma EndTurnAccounted(w: World, w1: World, c: CallId, outcome: Outcome, provider: Provider, usage: TurnUsage, now: int)
    requires Accounted(w) && c in w.calls && SameMaps(w, w1, c) && WellFormed(w.ledger) && Driving(w.calls[c])
    ensures Accounted(EndTurn(w1, c, outcome, provider, usage, now))
  {
    var t := w.calls[c].task;
    CatchAccounted(w, w1, c);
    if t in w1.db.tasks {
      if Terminal(w1.db.tasks[t].status) {
        SettledAccounted(w, w1, c, provider, usage);
      } else {
        var moved := Transition(w1.db, t, {w1.db.tasks[t].status}, outcome, now);
        if moved.Ok? {
          SettledAccounted(w, w1.(db := moved.value), c, provider, usage);
        }
      }
    }
  }

  // ---------------------------------------------------------------- attaching

  /** Attaching a reserved hold never fails, in any run: nobody else can have settled or attached it. */
  lemma AttachNeverFails(w: World, c: CallId)
    requires Accounted(w) && c in w.calls && Pending(w.calls[c].point)
    ensures Attached(w, c).Some?
  {
    assert CallFits(w, c);
  }

  /** The call moves on with its hold attached and registered. */
  ghost predicate Attaches(w: World, w': World, c: CallId, point: Point)
    requires c in w.calls
  {
    var call := w.calls[c];
    && w'.calls == w.calls[c := call.(point := point)]
    && w'.capacity == w.capacity && w'.startingTasks == w.startingTasks
    && match call.hold
       case None => w'.ledger == w.ledger && w'.activeReservations == w.activeReservations
       case Some(h) =>
         && AttachTask(w.ledger, h, call.task) == Ok(w'.ledger)
         && w'.activeReservations == w.activeReservations[call.task := h]
  }

  lemma AttachedAccounted(w: World, w': World, c: CallId, point: Point)
    requires Accounted(w) && c in w.calls && Pending(w.calls[c].point) && Attaches(w, w', c, point)
    requires KindFits(w.calls[c].kind, point) && !Pending(point) && point !in {AwaitAvailability, AwaitCancelClosing}
    ensures Accounted(w')
  {
    OwnHold(w, c);
    SegmentAccounted(w, w', c, w.calls[c].hold);
  }

  /** With the attach never failing, persisting a task has two ends: the worktree is removed again, or the
      task is inserted in `created` with its hold attached and registered. The error path that would move
      `created` to `failed` is never taken. */
  lemma WorktreeCreatedExactly(w: World, c: CallId, worktree: Worktree, projectActive: bool, now: int)
    requires Accounted(w) && Suspended(w, c, {AwaitWorktree})
    ensures var call := w.calls[c];
            var w' := WorktreeCreated(w, c, worktree, projectActive, now);
            var r := CreateWithWorktree(w.db, call.task, projectActive, call.provider, call.threadId, worktree, now);
            && Accounted(w')
            && (r.Err? ==> w' == At(w, c, AwaitWorktreeRemoval))
            && (r.Ok? ==>
                  && w'.db == r.value && w'.calls == w.calls[c := call.(point := AwaitRenderer)]
                  && (call.hold.Some? ==>
                        && IsActive(w'.ledger, call.hold.value)
                        && w'.ledger.holds[call.hold.value].taskId == Some(call.task)
                        && Lookup(w'.activeReservations, call.task) == call.hold))
  {
    var call := w.calls[c];
    OwnHold(w, c);
    var r := CreateWithWorktree(w.db, call.task, projectActive, call.provider, call.threadId, worktree, now);
    if r.Err? {
      AtAccounted(w, w, c, AwaitWorktreeRemoval);
    } else {
      var w' := WorktreeCreated(w, c, worktree, projectActive, now);
      AttachNeverFails(w, c);
      assert Attached(w.(db := r.value), c).Some?;
      assert Attaches(w, w', c, AwaitRenderer);
      AttachedAccounted(w, w', c, AwaitRenderer);
    }
  }

  lemma ReopenedAccounted(w: World, c: CallId, now: int)
    requires Accounted(w) && Suspended(w, c, {AwaitReservation})
    ensures Accounted(Reopened(w, c, now))
  {
    OwnHold(w, c);
    var r := ReopenForContinuation(w.db, w.calls[c].task, now);
    if r.Err? {
      CatchAccounted(w, w, c);
    } else {
      AttachNeverFails(w, c);
      assert Attached(w.(db := r.value), c).Some?;
      AttachedAccounted(w, Reopened(w, c, now), c, AwaitResumedRenderer);
    }
  }

  // ---------------------------------------------------------------- every event

  lemma NotStarting(w: World, c: CallId)
    requires Accounted(w) && (c in w.calls ==> w.calls[c].point != AwaitProvider)
    ensures forall u :: u in w.startingTasks ==> w.startingTasks[u] != c
  {
    forall u | u in w.startingTasks ensures w.startingTasks[u] != c {
      assert Starts(w, u);
    }
  }

  lemma ReserveAdds(l: Ledger, capacity: Capacity, provider: Provider, taskClass: TaskClass, id: HoldId)
    ensures var r := Reserve(l, capacity, provider, taskClass, id);
            r.Ok? ==> id !in l.holds && Settles(l, r.value, None) && IsActive(r.value, id) && r.value.holds[id].taskId.None?
  {
  }

  lemma FreshHold(w: World, hold: HoldId)
    requires Accounted(w) && hold !in w.ledger.holds
    ensures forall d :: d in w.calls ==> w.calls[d].hold != Some(hold)
  {
    forall d | d in w.calls ensures w.calls[d].hold != Some(hold) {
      assert CallFits(w, d);
    }
  }

  /** A call enters with a hold just created. */
  lemma EnterAccounted(w: World, c: CallId, call: Call, ledger: Ledger, hold: HoldId)
    requires Accounted(w) && KindFits(call.kind, call.point) && Pending(call.point) && w.capacity.Some?
    requires c in w.calls ==> w.calls[c].point != AwaitProvider
    requires hold !in w.ledger.holds && Settles(w.ledger, ledger, None)
    requires call.hold == Some(hold) && IsActive(ledger, hold) && ledger.holds[hold].taskId.None?
    ensures Accounted(w.(ledger := ledger, calls := w.calls[c := call]))
  {
    var w' := w.(ledger := ledger, calls := w.calls[c := call]);
    NotStarting(w, c);
    FreshHold(w, hold);
    assert CallFits(w', c);
    SegmentAccounted(w, w', c, Some(hold));
  }

  lemma ReservedAccounted(w: World, c: CallId, call: Call, taskClass: TaskClass, hold: HoldId)
    requires Accounted(w) && KindFits(call.kind, call.point) && Pending(call.point) && call.hold.None?
    requires c in w.calls ==> w.calls[c].point == AwaitAvailability
    ensures Accounted(Reserved(w, call, c, taskClass, hold))
  {
    NotStarting(w, c);
    if w.capacity.None? {
      assert CallFits(w.(calls := w.calls[c := call]), c);
      SegmentAccounted(w, w.(calls := w.calls[c := call]), c, None);
    } else {
      var r := Reserve(w.ledger, w.capacity.value, call.provider, taskClass, hold);
      if r.Ok? {
        ReserveAdds(w.ledger, w.capacity.value, call.provider, taskClass, hold);
        EnterAccounted(w, c, call.(hold := Some(hold)), r.value, hold);
      } else {
        SegmentAccounted(w, Ended(w, c), c, None);
      }
    }
  }

  lemma NewCallAccounted(w: World, c: CallId, call: Call)
    requires Accounted(w) && c !in w.calls && call.hold.None?
    requires KindFits(call.kind, call.point) && call.point in {AwaitAvailability, AwaitCancelClosing}
    ensures Accounted(w.(calls := w.calls[c := call]))
  {
    NotStarting(w, c);
    SegmentAccounted(w, w.(calls := w.calls[c := call]), c, None);
  }

  lemma NowRunningAccounted(w: World, w1: World, c: CallId, now: int)
    requires Accounted(w) && Suspended(w, c, {AwaitProvider}) && SameMaps(w, w1, c)
    ensures Accounted(NowRunning(w1, c, now))
  {
    OwnHold(w, c);
    EndedAccounted(w, w1, c);
    CatchAccounted(w, w1, c);
    var r := Transition(w1.db, w.calls[c].task, {Starting}, Running, now);
    if r.Ok? {
      AtAccounted(w, w1.(db := r.value), c, AwaitRunningCard);
    }
  }

  lemma ProviderStartedAccounted(w: World, w1: World, c: CallId, session: Session, now: int)
    requires Accounted(w) && WellFormed(w.ledger) && Suspended(w, c, {AwaitProvider}) && SameMaps(w, w1, c)
    ensures Accounted(ProviderStarted(w1, c, session, now))
  {
    var call := w.calls[c];
    if call.kind == StartCall {
      EndedAccounted(w, w1, c);
      var attached := AttachProviderSession(w1.db, call.task, session);
      if attached.Ok? {
        NowRunningAccounted(w, w1.(db := attached.value), c, now);
      } else {
        CatchAccounted(w, w1, c);
      }
    } else if call.session != Some(session) {
      EndTurnAccounted(w, w1, c, Failed, call.provider, TurnUsage(None, 0, true), now);
    } else {
      NowRunningAccounted(w, w1, c, now);
    }
  }

  lemma ProviderReadyAccounted(w: World, c: CallId, started: Option<Session>, now: int)
    requires Accounted(w) && WellFormed(w.ledger) && Suspended(w, c, {AwaitProvider})
    ensures Accounted(Step(w, ProviderReady(c, started, now)))
  {
    var call := w.calls[c];
    var w1 := w.(startingTasks := w.startingTasks - {call.task});
    if started.None? {
      EndTurnAccounted(w, w1, c, Failed, call.provider, TurnUsage(None, 0, true), now);
    } else {
      ProviderStartedAccounted(w, w1, c, started.value, now);
    }
  }

  /** The calls are the same but for cancellation flags, pending holds are untouched, and nothing new is
      registered; the tables and the renderers do not matter. */
  lemma UntouchedAccounted(w: World, w': World)
    requires Accounted(w) && w'.capacity == w.capacity && w'.calls.Keys == w.calls.Keys
    requires forall c :: c in w.calls ==> w'.calls[c].(cancelled := false) == w.calls[c].(cancelled := false)
    requires Settles(w.ledger, w'.ledger, None) && w'.startingTasks == w.startingTasks
    requires forall u :: u in w'.activeReservations ==> Lookup(w.activeReservations, u) == Some(w'.activeReservations[u])
    ensures Accounted(w')
  {
    forall c | c in w'.calls ensures CallFits(w', c) {
      assert CallFits(w, c) && w'.calls[c].(cancelled := false) == w.calls[c].(cancelled := false);
    }
    forall c, d | c in w'.calls && d in w'.calls && c != d && w'.calls[c].hold.Some? ensures w'.calls[c].hold != w'.calls[d].hold {
      assert w'.calls[c].(cancelled := false) == w.calls[c].(cancelled := false);
      assert w'.calls[d].(cancelled := false) == w.calls[d].(cancelled := false);
    }
    forall u | u in w'.activeReservations ensures Registered(w', u) {
      assert Registered(w, u);
    }
    forall u | u in w'.startingTasks ensures Starts(w', u) {
      var d := w.startingTasks[u];
      assert Starts(w, u);
      assert w'.calls[d].(cancelled := false) == w.calls[d].(cancelled := false);
    }
  }

  lemma CancelReleasedAccounted(w: World, t: TaskId)
    requires Accounted(w)
    ensures Accounted(CancelReleased(w, t))
  {
    if t in w.activeReservations {
      assert Registered(w, t);
    }
    UntouchedAccounted(w, CancelReleased(w, t));
  }

  function Flagged(w: World, t: TaskId): World {
    if t in w.startingTasks && w.startingTasks[t] in w.calls
    then w.(calls := w.calls[w.startingTasks[t] := w.calls[w.startingTasks[t]].(cancelled := true)])
    else w
  }

  /** The first segment of a cancellation: flag a start under way, then move the row and save the result;
      then either wait for the card with a new call, or release at once. */
  lemma CancellingShape(w: World, k: CallId, t: TaskId, now: int)
    ensures var w' := Cancelling(w, k, t, now);
            var f := Flagged(w, t).(db := w'.db);
            || w' == w || w' == f
            || (k !in w.calls && k in w'.calls && w' == f.(calls := f.calls[k := w'.calls[k]])
                && w'.calls[k] == Call(CancelCall, t, w'.calls[k].provider, w'.calls[k].threadId, None, None, AwaitCancelClosing, false))
            || w' == CancelReleased(f, t)
  {
  }

  lemma FlaggedCalls(w: World, t: TaskId)
    ensures var f := Flagged(w, t);
            && f == w.(calls := f.calls) && f.calls.Keys == w.calls.Keys
            && forall c :: c in w.calls ==> f.calls[c].(cancelled := false) == w.calls[c].(cancelled := false)
  {
  }

  lemma FlaggedAccounted(w: World, t: TaskId, db: Tables)
    requires Accounted(w)
    ensures Accounted(Flagged(w, t).(db := db))
  {
    FlaggedCalls(w, t);
    UntouchedAccounted(w, Flagged(w, t).(db := db));
  }

  lemma WaitingAccounted(f: World, w': World, k: CallId, call: Call)
    requires Accounted(f) && k !in f.calls && w' == f.(calls := f.calls[k := call])
    requires call.hold.None? && call.kind == CancelCall && call.point == AwaitCancelClosing
    ensures Accounted(w')
  {
    NewCallAccounted(f, k, call);
  }

  lemma CancellingAccounted(w: World, k: CallId, t: TaskId, now: int)
    requires Accounted(w)
    ensures Accounted(Cancelling(w, k, t, now))
  {
    var w' := Cancelling(w, k, t, now);
    CancellingShape(w, k, t, now);
    var f := Flagged(w, t).(db := w'.db);
    FlaggedAccounted(w, t, w'.db);
    if w' == CancelReleased(f, t) {
      CancelReleasedAccounted(f, t);
    } else if w' != w && w' != f {
      FlaggedCalls(w, t);
      WaitingAccounted(f, w', k, w'.calls[k]);
    }
  }

  lemma ClosingAccounted(w: World, c: CallId)
    requires Accounted(w) && Suspended(w, c, {AwaitClosing, AwaitCancelClosing})
    ensures Accounted(Ended(w.(activeRenderers := w.activeRenderers - {w.calls[c].task}), c))
  {
    EndedAccounted(w, w.(activeRenderers := w.activeRenderers - {w.calls[c].task}), c);
  }

  lemma StartingAccounted(w: World, c: CallId, now: int)
    requires Accounted(w) && Suspended(w, c, {AwaitStartingCard})
    ensures Accounted(Resumed(w, c, now))
  {
    OwnHold(w, c);
    SegmentAccounted(w, Resumed(w, c, now), c, w.calls[c].hold);
  }

  lemma ResumedAccounted(w: World, c: CallId, now: int)
    requires Accounted(w) && c in w.calls
    ensures Accounted(Resumed(w, c, now))
  {
    var call := w.calls[c];
    OwnHold(w, c);
    match call.point
    case AwaitWorktreeRemoval => CatchAccounted(w, w, c);
    case AwaitRenderer =>
      var r := Transition(w.db, call.task, {Created}, Starting, now);
      CatchAccounted(w, w, c);
      if r.Ok? { AtAccounted(w, w.(db := r.value), c, AwaitStartingCard); }
    case AwaitStartingCard => StartingAccounted(w, c, now);
    case AwaitReservation => ReopenedAccounted(w, c, now);
    case AwaitResumedRenderer => AtAccounted(w, w, c, AwaitProvider);
    case AwaitRunningCard => AtAccounted(w, w, c, AwaitCompletion);
    case AwaitClosing => ClosingAccounted(w, c);
    case AwaitCancelClosing =>
      ClosingAccounted(w, c);
      CancelReleasedAccounted(Ended(w.(activeRenderers := w.activeRenderers - {call.task}), c), call.task);
    case AwaitThread =>
    case AwaitWorktree =>
    case AwaitAvailability =>
    case AwaitProvider =>
    case AwaitCompletion =>
  }

  lemma TurnCompletedAccounted(w: World, c: CallId, outcome: Outcome, provider: Provider, usage: TurnUsage, now: int)
    requires Accounted(w) && WellFormed(w.ledger) && Suspended(w, c, {AwaitCompletion})
    ensures Accounted(Finalize(w, c, outcome, provider, usage, now))
  {
    var t := w.calls[c].task;
    OwnHold(w, c);
    if t in w.db.tasks && t in w.db.results {
      SegmentAccounted(w, Finalize(w, c, outcome, provider, usage, now), c, w.calls[c].hold);
    } else {
      EndTurnAccounted(w, w, c, outcome, provider, usage, now);
    }
  }

  lemma TablesOnly(w: World, e: Event)
    requires WellFormed(w.ledger) && (e.DecisionOpened? || e.DecisionClosed? || e.WorktreeClosed?)
    ensures Step(w, e) == w.(db := Step(w, e).db)
  {
  }

  lemma BeginAccounted(w: World, e: Event)
    requires Accounted(w) && WellFormed(w.ledger)
    requires e.StartTask? || e.ContinueTask? || e.AvailabilityChecked?
    ensures Accounted(Step(w, e))
  {
    match e
    case StartTask(c, task, provider, threadId, taskClass, hold) =>
      if c !in w.calls {
        ReservedAccounted(w, c, Call(StartCall, task, provider, threadId, None, None, AwaitThread, false), taskClass, hold);
      }
    case ContinueTask(c, task) =>
      if Step(w, e) != w { NewCallAccounted(w, c, Step(w, e).calls[c]); }
    case AvailabilityChecked(c, ok, taskClass, hold) =>
      if Suspended(w, c, {AwaitAvailability}) {
        OwnHold(w, c);
        EndedAccounted(w, w, c);
        ReservedAccounted(w, c, w.calls[c].(point := AwaitReservation), taskClass, hold);
      }
  }

  lemma CreateAccounted(w: World, e: Event)
    requires Accounted(w) && WellFormed(w.ledger) && (e.ThreadReady? || e.WorktreeReady?)
    ensures Accounted(Step(w, e))
  {
    match e
    case ThreadReady(c, ok) =>
      if Suspended(w, c, {AwaitThread}) {
        OwnHold(w, c);
        if ok { AtAccounted(w, w, c, AwaitWorktree); } else { CatchAccounted(w, w, c); }
      }
    case WorktreeReady(c, created, projectActive, now) =>
      if Suspended(w, c, {AwaitWorktree}) {
        if created.None? { CatchAccounted(w, w, c); }
        else { WorktreeCreatedExactly(w, c, created.value, projectActive, now); }
      }
  }

  /** Every event keeps calls, holds and maps accounted for. */
  lemma StepAccounted(w: World, e: Event)
    requires Accounted(w) && WellFormed(w.ledger)
    ensures Accounted(Step(w, e))
  {
    match e
    case StartTask(_, _, _, _, _, _) => BeginAccounted(w, e);
    case ContinueTask(_, _) => BeginAccounted(w, e);
    case AvailabilityChecked(_, _, _, _) => BeginAccounted(w, e);
    case ThreadReady(_, _) => CreateAccounted(w, e);
    case WorktreeReady(_, _, _, _) => CreateAccounted(w, e);
    case ProviderReady(c, started, now) =>
      if Suspended(w, c, {AwaitProvider}) { ProviderReadyAccounted(w, c, started, now); }
    case TurnCompleted(c, outcome, provider, usage, now) =>
      if Suspended(w, c, {AwaitCompletion}) { TurnCompletedAccounted(w, c, outcome, provider, usage, now); }
    case Resume(c, now) => if c in w.calls { ResumedAccounted(w, c, now); }
    case CancelTask(c, task, now) => CancellingAccounted(w, c, task, now);
    case Restart(_) =>
    case CrashedRestart(_, _, _) =>
    case Shutdown => UntouchedAccounted(w, Step(w, e));
    case _ =>
      TablesOnly(w, e);
      UntouchedAccounted(w, Step(w, e));
  }

  lemma {:induction false} RunAccounted(w: World, es: seq<Event>)
    requires Balanced(w.ledger) && Accounted(w)
    ensures Accounted(Run(w, es))
    decreases |es|
  {
    if es != [] {
      StepBalanced(w, es[0]);
      StepAccounted(w, es[0]);
      RunAccounted(Step(w, es[0]), es[1..]);
    }
  }

  // ---------------------------------------------------------------- from an empty store

  /** A first start: no rows, no calls. */
  function EmptyWorld(capacity: Option<Capacity>): World {
    World(Tables(map[], map[], map[], map[]), Ledger(map[], []), capacity, map[], map[], map[], map[])
  }

  lemma EmptyWorldOk(capacity: Option<Capacity>)
    ensures var w := EmptyWorld(capacity);
            Balanced(w.ledger) && Consistent(w.db) && Accounted(w) && HoldsConserved(w)
  {
    var w := EmptyWorld(capacity);
    forall o: Observation ensures multiset(w.ledger.observations)[o] == ConsumedCount(w.ledger.holds, o) {
      assert w.ledger.holds == map[];
    }
    forall t ensures TaskConsistent(w.db, t) {
    }
  }
}
