/**
 The scheduled-loop service as a state machine: durable rows, in-memory runtimes, pending timers and
 the `runNow` calls that await an iteration or its waiting card. A stop of the process keeps the rows only.
 Within one process a loop id is registered at most once, so the id stands for the runtime object.
 */
module LoopMachine {
  import opened Common
  import opened LoopStore

  type TimerId = nat
  type CallId = nat

  datatype Runtime = Runtime(timer: Option<TimerId>, executing: bool)

  datatype Point = Executing | Presenting(nextRunAt: int)

  datatype InFlight = InFlight(loop: LoopId, iteration: nat, point: Point)

  /** A row as `listResumable` returned it. */
  datatype Listed = Listed(id: LoopId, row: LoopRow)

  /** Reconciliation runs once, before any handler is attached. */
  datatype Mode = Down | Reconciling(todo: seq<Listed>, fetching: bool) | Serving

  datatype Numbered = Numbered(loop: LoopId, iteration: nat)

  /** `acquired` and `executed` record every acquisition and every call of the iteration callback. */
  datatype State = State(
    rows: Rows, runtimes: map<LoopId, Runtime>, pending: map<TimerId, LoopId>, calls: map<CallId, InFlight>,
    mode: Mode, presents: bool, acquired: seq<Numbered>, executed: seq<Numbered>)

  datatype Answer = Threw | Returned(terminalReason: Option<string>)

  datatype Selector = ByChannel(channel: string) | ByThread(thread: string)

  datatype Event =
    | Boot(order: seq<LoopId>)
    | ReconcileNext(projectFound: bool, now: int)
    | ThreadFetched(found: bool, now: int, timer: TimerId)
    | CreateAndStart(id: LoopId, projectActive: bool, project: string, channel: string, thread: string,
                     interval: int, now: int, call: CallId)
    | Fire(timer: TimerId, now: int, call: CallId)
    | Executed(call: CallId, answer: Answer, now: int, timer: TimerId)
    | Presented(call: CallId, answer: Answer, now: int, timer: TimerId)
    | Close(selector: Selector, status: LoopStatus, reason: string, now: int)
    | CloseAll(project: string, reason: string, now: int)
    | Crash
    | CreateThenCrash(id: LoopId, projectActive: bool, project: string, channel: string, thread: string, interval: int,
                      now: int, acquired: bool)
    | AcquireThenCrash(id: LoopId, now: int)

  // ---------------------------------------------------------------- pieces of the service

  function Detach(s: State, id: LoopId): State {
    if id !in s.runtimes then s
    else
      var timer := s.runtimes[id].timer;
      s.(pending := if timer.Some? then s.pending - {timer.value} else s.pending, runtimes := s.runtimes - {id})
  }

  function Register(s: State, id: LoopId): State {
    if id in s.runtimes then s else s.(runtimes := s.runtimes[id := Runtime(None, false)])
  }

  function ClearTimer(s: State, id: LoopId): State {
    if id in s.runtimes && s.runtimes[id].timer.Some?
    then s.(pending := s.pending - {s.runtimes[id].timer.value},
            runtimes := s.runtimes[id := s.runtimes[id].(timer := None)])
    else s
  }

  function ScheduleTimer(s: State, id: LoopId, timer: TimerId): State {
    var cleared := ClearTimer(s, id);
    cleared.(pending := cleared.pending[timer := id],
             runtimes := if id in cleared.runtimes
                         then cleared.runtimes[id := cleared.runtimes[id].(timer := Some(timer))]
                         else cleared.runtimes)
  }

  function Terminalized(s: State, id: LoopId, reason: string, now: int): State {
    var closed := CloseOne(s.rows, id, Ended, reason, now);
    if closed.Some? then s.(rows := closed.value) else s
  }

  /** `runNow` up to the call of the iteration. */
  function RunNow(s: State, id: LoopId, now: int, call: CallId): State {
    if id !in s.runtimes || s.runtimes[id].executing then s
    else
      var cleared := ClearTimer(s, id);
      match AcquireIteration(s.rows, id, now)
      case None => Detach(cleared, id)
      case Some(rows) =>
        var number := Numbered(id, rows[id].iteration);
        cleared.(rows := rows, runtimes := cleared.runtimes[id := Runtime(None, true)],
                 calls := s.calls[call := InFlight(id, number.iteration, Executing)],
                 acquired := s.acquired + [number], executed := s.executed + [number])
  }

  function CallEnded(s: State, call: CallId): State { s.(calls := s.calls - {call}) }

  /** The `finally` clause after an iteration. */
  function Unblocked(s: State, id: LoopId): State {
    if id in s.runtimes then s.(runtimes := s.runtimes[id := s.runtimes[id].(executing := false)]) else s
  }

  /** The end of `runNow`: wait for the next run unless the loop is no longer active. */
  function Rearmed(s: State, id: LoopId, timer: TimerId): State {
    if id !in s.rows || s.rows[id].status != Active then Detach(s, id) else ScheduleTimer(s, id, timer)
  }

  const INITIAL_FAILURE := "Initial scheduled-loop iteration failed before a durable continuation was established"

  function ProjectGone(row: LoopRow): string { "Project \"" + row.project + "\" is unavailable or archived" }

  function ThreadGone(row: LoopRow): string { "Discord thread " + row.thread + " is unavailable" }

  /** A first iteration that throws ends the loop, and so does a nonempty terminal reason. */
  function ClosingReason(answer: Answer, first: bool): Option<string> {
    match answer
    case Threw => if first then Some(INITIAL_FAILURE) else None
    case Returned(reason) => if reason == Some("") then None else reason
  }

  /** `runNow` from the iteration's answer to its next await. */
  function AfterIteration(s: State, call: CallId, answer: Answer, now: int, timer: TimerId): State
    requires call in s.calls
  {
    var inFlight := s.calls[call];
    var id := inFlight.loop;
    var idle := Unblocked(s, id);
    var done := CallEnded(idle, call);
    var reason := ClosingReason(answer, inFlight.iteration == 1);
    if reason.Some? then Detach(Terminalized(done, id, reason.value, now), id)
    else if id !in s.rows || s.rows[id].status != Running then Detach(done, id)
    else
      var nextRunAt := now + s.rows[id].interval;
      match ScheduleNext(s.rows, id, nextRunAt, now)
      case None => Detach(done, id)
      case Some(rows) =>
        if s.presents then idle.(rows := rows, calls := s.calls[call := inFlight.(point := Presenting(nextRunAt))])
        else Rearmed(done.(rows := rows), id, timer)
  }

  function AfterPresenting(s: State, call: CallId, answer: Answer, now: int, timer: TimerId): State
    requires call in s.calls
  {
    var id := s.calls[call].loop;
    var done := CallEnded(s, call);
    var reason := ClosingReason(answer, false);
    if reason.Some? then Detach(Terminalized(done, id, reason.value, now), id)
    else Rearmed(done, id, timer)
  }

  function Fired(s: State, timer: TimerId, now: int, call: CallId): State
    requires timer in s.pending
  {
    var id := s.pending[timer];
    RunNow(ClearTimer(s.(pending := s.pending - {timer}), id), id, now, call)
  }

  function Created(s: State, rows: Rows, id: LoopId, now: int, call: CallId): State {
    RunNow(Register(s.(rows := rows), id), id, now, call)
  }

  ghost predicate Lists(rows: Rows, order: seq<LoopId>) {
    && (forall i, j :: 0 <= i < j < |order| ==> order[i] != order[j])
    && (forall id :: id in order <==> id in rows && Live(rows[id]))
  }

  function Snapshot(rows: Rows, order: seq<LoopId>): seq<Listed>
    requires forall id :: id in order ==> id in rows
  {
    seq(|order|, i requires 0 <= i < |order| => Listed(order[i], rows[order[i]]))
  }

  function Skipped(s: State): State
    requires s.mode.Reconciling? && s.mode.todo != []
  {
    s.(mode := if |s.mode.todo| == 1 then Serving else Reconciling(s.mode.todo[1..], false))
  }

  /** Reconciling one loop up to the fetch of its thread. */
  function Reconcile(s: State, projectFound: bool, now: int): State
    requires s.mode.Reconciling? && s.mode.todo != []
  {
    var id := s.mode.todo[0].id;
    if id in s.runtimes then Skipped(s)
    else if !projectFound then Skipped(Terminalized(s, id, ProjectGone(s.mode.todo[0].row), now))
    else s.(mode := s.mode.(fetching := true))
  }

  /** The rows a kept loop resumes with: an interrupted one is deferred, never replayed. */
  function DeferInterrupted(rows: Rows, listed: Listed, now: int): Option<Rows> {
    if listed.row.status != Running then Some(rows)
    else ScheduleNext(rows, listed.id, now + listed.row.interval, now)
  }

  /** The rest of reconciling one loop. */
  function Resumed(s: State, found: bool, now: int, timer: TimerId): State
    requires s.mode.Reconciling? && s.mode.todo != []
  {
    var listed := s.mode.todo[0];
    if !found then Skipped(Terminalized(s, listed.id, ThreadGone(listed.row), now))
    else
      match DeferInterrupted(s.rows, listed, now)
      case None => Skipped(s)
      case Some(rows) => Rejoined(s.(rows := rows), listed.id, timer)
  }

  /** A loop that is kept is registered and waits for its timer. */
  function Rejoined(s: State, id: LoopId, timer: TimerId): State
    requires s.mode.Reconciling? && s.mode.todo != []
  {
    Skipped(ScheduleTimer(Register(s, id), id, timer))
  }

  ghost function Selected(rows: Rows, selector: Selector): Option<LoopId> {
    match selector
    case ByChannel(channel) => LiveInChannel(rows, channel)
    case ByThread(thread) => LiveInThread(rows, thread)
  }

  function ClosedAndDetached(s: State, id: LoopId, status: LoopStatus, reason: string, now: int): State {
    match CloseOne(s.rows, id, status, reason, now)
    case None => s
    case Some(rows) => Detach(s.(rows := rows), id)
  }

  /** Closing a project's loops detaches every one of them. */
  function ClosedProject(s: State, project: string, reason: string, now: int): State {
    s.(rows := CloseProject(s.rows, project, reason, now),
       runtimes := map id | id in s.runtimes && !(id in s.rows && InProject(s.rows[id], project)) :: s.runtimes[id],
       pending := map t | t in s.pending && !(s.pending[t] in s.rows && InProject(s.rows[s.pending[t]], project)) :: s.pending[t])
  }

  function Crashed(s: State): State { s.(runtimes := map[], pending := map[], calls := map[], mode := Down) }

  /** Only the acquisition of `runNow`, as when the process stops right after it. */
  function Taken(s: State, id: LoopId, now: int): State {
    match AcquireIteration(s.rows, id, now)
    case None => s
    case Some(rows) => s.(rows := rows, acquired := s.acquired + [Numbered(id, rows[id].iteration)])
  }

  ghost function Step(s: State, e: Event): State {
    match e
    case Boot(order) =>
      if s.mode == Down && Lists(s.rows, order)
      then s.(mode := if order == [] then Serving else Reconciling(Snapshot(s.rows, order), false))
      else s
    case ReconcileNext(projectFound, now) =>
      if s.mode.Reconciling? && s.mode.todo != [] && !s.mode.fetching then Reconcile(s, projectFound, now) else s
    case ThreadFetched(found, now, timer) =>
      if s.mode.Reconciling? && s.mode.todo != [] && s.mode.fetching && timer !in s.pending
      then Resumed(s, found, now, timer) else s
    case CreateAndStart(id, projectActive, project, channel, thread, interval, now, call) =>
      if s.mode != Serving || call in s.calls then s
      else
        (match Create(s.rows, id, projectActive, project, channel, thread, interval, now)
         case Err(_) => s
         case Ok(rows) => Created(s, rows, id, now, call))
    case Fire(timer, now, call) =>
      if timer in s.pending && call !in s.calls then Fired(s, timer, now, call) else s
    case Executed(call, answer, now, timer) =>
      if call in s.calls && s.calls[call].point == Executing && timer !in s.pending
      then AfterIteration(s, call, answer, now, timer) else s
    case Presented(call, answer, now, timer) =>
      if call in s.calls && s.calls[call].point.Presenting? && timer !in s.pending
      then AfterPresenting(s, call, answer, now, timer) else s
    case Close(selector, status, reason, now) =>
      if s.mode != Serving || !(status == Stopped || status == Ended) then s
      else
        (match Selected(s.rows, selector)
         case None => s
         case Some(id) => ClosedAndDetached(s, id, status, reason, now))
    case CloseAll(project, reason, now) =>
      if s.mode == Serving then ClosedProject(s, project, reason, now) else s
    case Crash => Crashed(s)
    case CreateThenCrash(id, projectActive, project, channel, thread, interval, now, acquired) =>
      if s.mode != Serving then s
      else
        (match Create(s.rows, id, projectActive, project, channel, thread, interval, now)
         case Err(_) => s
         case Ok(rows) => Crashed(if acquired then Taken(s.(rows := rows), id, now) else s.(rows := rows)))
    case AcquireThenCrash(id, now) =>
      if id in s.runtimes then Crashed(Taken(s, id, now)) else s
  }

  ghost function Run(s: State, es: seq<Event>): State
    decreases |es|
  {
    if es == [] then s else Step(Run(s, es[..|es| - 1]), es[|es| - 1])
  }

  /** The first start of the service on empty tables. */
  function Initial(presents: bool): State {
    State(map[], map[], map[], map[], Down, presents, [], [])
  }
}
