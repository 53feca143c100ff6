/** The durable scheduled-loop rows and the guarded statements of the loop repository. */
module LoopStore {
  import opened Common

  type LoopId = string

  datatype LoopStatus = Active | Running | Stopped | Ended

  datatype LoopRow = LoopRow(
    project: string, channel: string, thread: string, interval: int,
    iteration: nat, nextRunAt: Option<int>, status: LoopStatus,
    startedAt: int, updatedAt: int, stoppedAt: Option<int>, reason: Option<string>)

  type Rows = map<LoopId, LoopRow>

  predicate Live(r: LoopRow) { r.status == Active || r.status == Running }

  datatype LoopError = BadInterval | ChannelBusy | ProjectMissing | DuplicateRow

  // ---------------------------------------------------------------- statements

  predicate BusyChannel(rows: Rows, channel: string) {
    exists id :: id in rows && Live(rows[id]) && rows[id].channel == channel
  }

  predicate TakenThread(rows: Rows, thread: string) {
    exists id :: id in rows && rows[id].thread == thread
  }

  function Create(rows: Rows, id: LoopId, projectActive: bool, project: string, channel: string, thread: string,
                  interval: int, now: int): Result<Rows, LoopError>
  {
    if interval <= 0 || interval > 9007199254740991 then Err(BadInterval)
    else if BusyChannel(rows, channel) then Err(ChannelBusy)
    else if !projectActive then Err(ProjectMissing)
    else if id in rows || TakenThread(rows, thread) then Err(DuplicateRow)
    else Ok(rows[id := LoopRow(project, channel, thread, interval, 0, None, Active, now, now, None, None)])
  }

  function AcquireIteration(rows: Rows, id: LoopId, now: int): Option<Rows> {
    if id in rows && rows[id].status == Active
    then Some(rows[id := rows[id].(status := Running, iteration := rows[id].iteration + 1, nextRunAt := None, updatedAt := now)])
    else None
  }

  /** `scheduleNext` and `deferInterrupted` run the same statement. */
  function ScheduleNext(rows: Rows, id: LoopId, nextRunAt: int, now: int): Option<Rows> {
    if id in rows && rows[id].status == Running
    then Some(rows[id := rows[id].(status := Active, nextRunAt := Some(nextRunAt), updatedAt := now)])
    else None
  }

  function Closed(r: LoopRow, status: LoopStatus, reason: string, now: int): LoopRow {
    r.(status := status, nextRunAt := None, stoppedAt := Some(now), reason := Some(reason), updatedAt := now)
  }

  function CloseOne(rows: Rows, id: LoopId, status: LoopStatus, reason: string, now: int): Option<Rows> {
    if id in rows && Live(rows[id]) then Some(rows[id := Closed(rows[id], status, reason, now)]) else None
  }

  predicate InProject(r: LoopRow, project: string) { Live(r) && r.project == project }

  function CloseProject(rows: Rows, project: string, reason: string, now: int): Rows {
    map id | id in rows ::
      if InProject(rows[id], project) then Closed(rows[id], Ended, reason, now) else rows[id]
  }

  /** The live row a channel or a thread selects, if any. */
  ghost function LiveInChannel(rows: Rows, channel: string): Option<LoopId> {
    if BusyChannel(rows, channel)
    then var id :| id in rows && Live(rows[id]) && rows[id].channel == channel; Some(id)
    else None
  }

  ghost function LiveInThread(rows: Rows, thread: string): Option<LoopId> {
    if exists id :: id in rows && Live(rows[id]) && rows[id].thread == thread
    then var id :| id in rows && Live(rows[id]) && rows[id].thread == thread; Some(id)
    else None
  }

  // ---------------------------------------------------------------- the invariant of the table

  predicate RowOk(r: LoopRow) {
    && r.interval > 0
    && (Live(r) <==> r.stoppedAt.None?) && (r.stoppedAt.Some? <==> r.reason.Some?)
    && (r.nextRunAt.Some? ==> r.status == Active)
    && (r.status == Running ==> r.iteration >= 1)
  }

  ghost predicate OneLivePerChannel(rows: Rows) {
    forall a, b :: a in rows && b in rows && Live(rows[a]) && Live(rows[b]) && rows[a].channel == rows[b].channel ==> a == b
  }

  ghost predicate OnePerThread(rows: Rows) {
    forall a, b :: a in rows && b in rows && rows[a].thread == rows[b].thread ==> a == b
  }

  ghost predicate TableOk(rows: Rows) {
    && (forall id :: id in rows ==> RowOk(rows[id])) && OneLivePerChannel(rows) && OnePerThread(rows)
  }

  /** What every statement does to one row: nothing once it has stopped or ended, and the iteration
      only ever moves on by one, when an active loop starts to run. */
  predicate Follows(r: LoopRow, r': LoopRow) {
    && r'.channel == r.channel && r'.thread == r.thread && r'.interval == r.interval && r'.project == r.project
    && (!Live(r) ==> r' == r)
    && (r'.iteration == r.iteration || (r.status == Active && r'.status == Running && r'.iteration == r.iteration + 1))
  }

  // ---------------------------------------------------------------- the repository

  class LoopRepository {
    var rows: Rows

    constructor ()
      ensures rows == map[]
    {
      rows := map[];
    }

    method Insert(id: LoopId, projectActive: bool, project: string, channel: string, thread: string, interval: int, now: int)
      returns (r: Result<(), LoopError>)
      modifies this
      ensures match Create(old(rows), id, projectActive, project, channel, thread, interval, now)
              case Ok(after) => r == Ok(()) && rows == after
              case Err(e) => r == Err(e) && rows == old(rows)
    {
      if interval <= 0 || interval > 9007199254740991 {
        return Err(BadInterval);
      }
      var busy := FindActiveByChannelId(channel);
      if busy.Some? {
        return Err(ChannelBusy);
      }
      if !projectActive {
        return Err(ProjectMissing);
      }
      if id in rows || exists other :: other in rows && rows[other].thread == thread {
        return Err(DuplicateRow);
      }
      rows := rows[id := LoopRow(project, channel, thread, interval, 0, None, Active, now, now, None, None)];
      return Ok(());
    }

    method FindActiveByChannelId(channel: string) returns (found: Option<LoopId>)
      ensures found.Some? ==> found.value in rows && Live(rows[found.value]) && rows[found.value].channel == channel
      ensures found.None? ==> !BusyChannel(rows, channel)
      ensures OneLivePerChannel(rows) ==> found == LiveInChannel(rows, channel)
    {
      var rest := rows.Keys;
      while rest != {}
        invariant rest <= rows.Keys
        invariant forall id :: id in rows && id !in rest ==> !(Live(rows[id]) && rows[id].channel == channel)
        decreases |rest|
      {
        var id :| id in rest;
        if Live(rows[id]) && rows[id].channel == channel {
          return Some(id);
        }
        rest := rest - {id};
      }
      return None;
    }

    method FindActiveByThreadId(thread: string) returns (found: Option<LoopId>)
      ensures found.Some? ==> found.value in rows && Live(rows[found.value]) && rows[found.value].thread == thread
      ensures OnePerThread(rows) ==> found == LiveInThread(rows, thread)
    {
      var rest := rows.Keys;
      while rest != {}
        invariant rest <= rows.Keys
        invariant forall id :: id in rows && id !in rest ==> !(Live(rows[id]) && rows[id].thread == thread)
        decreases |rest|
      {
        var id :| id in rest;
        if Live(rows[id]) && rows[id].thread == thread {
          return Some(id);
        }
        rest := rest - {id};
      }
      return None;
    }

    method Acquire(id: LoopId, now: int) returns (ok: bool)
      modifies this
      ensures ok <==> AcquireIteration(old(rows), id, now).Some?
      ensures rows == if ok then AcquireIteration(old(rows), id, now).value else old(rows)
    {
      if id !in rows || rows[id].status != Active {
        return false;
      }
      var row := rows[id];
      rows := rows[id := row.(status := Running, iteration := row.iteration + 1, nextRunAt := None, updatedAt := now)];
      return true;
    }

    method SetNext(id: LoopId, nextRunAt: int, now: int) returns (ok: bool)
      modifies this
      ensures ok <==> ScheduleNext(old(rows), id, nextRunAt, now).Some?
      ensures rows == if ok then ScheduleNext(old(rows), id, nextRunAt, now).value else old(rows)
    {
      if id !in rows || rows[id].status != Running {
        return false;
      }
      rows := rows[id := rows[id].(status := Active, nextRunAt := Some(nextRunAt), updatedAt := now)];
      return true;
    }

    method Close(id: LoopId, status: LoopStatus, reason: string, now: int) returns (ok: bool)
      modifies this
      ensures ok <==> CloseOne(old(rows), id, status, reason, now).Some?
      ensures rows == if ok then CloseOne(old(rows), id, status, reason, now).value else old(rows)
    {
      if id !in rows || !Live(rows[id]) {
        return false;
      }
      var row := rows[id];
      rows := rows[id := row.(status := status, nextRunAt := None, stoppedAt := Some(now), reason := Some(reason), updatedAt := now)];
      return true;
    }

    /** Closes every live loop of a project, one row at a time. */
    method TerminalizeByProject(project: string, reason: string, now: int) returns (closed: set<LoopId>)
      modifies this
      ensures rows == CloseProject(old(rows), project, reason, now)
      ensures closed == set id | id in old(rows) && InProject(old(rows)[id], project)
    {
      var before := rows;
      closed := set id | id in before && InProject(before[id], project);
      var rest := closed;
      while rest != {}
        invariant rest <= closed && rows.Keys == before.Keys
        invariant forall id :: id in before ==>
                    rows[id] == if id in closed && id !in rest then Closed(before[id], Ended, reason, now) else before[id]
        decreases |rest|
      {
        var id :| id in rest;
        rest := rest - {id};
        var ok := Close(id, Ended, reason, now);
      }
    }
  }
}
