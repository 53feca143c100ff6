/**
 The durable task tables: tasks, worktrees, provider sessions and results, and the guarded statements
 of the task repository. A statement that throws leaves the tables as they were.
 */
module TaskStore {
  import opened Common

  type ThreadId = string

  datatype Status =
    | Created | Starting | Running | WaitingForUser
    | Completed | Failed | Cancelled | Interrupted

  predicate Terminal(s: Status) { s in {Completed, Failed, Cancelled, Interrupted} }

  type Outcome = s: Status | Terminal(s) witness Completed

  /** The status changes `transition` accepts. */
  function LegalTransitions(s: Status): set<Status> {
    match s
    case Created => {Starting, Cancelled}
    case Starting => {Running, Failed, Cancelled, Interrupted}
    case Running => {WaitingForUser, Completed, Failed, Cancelled, Interrupted}
    case WaitingForUser => {Running, Completed, Failed, Cancelled, Interrupted}
    case Completed => {}
    case Failed => {}
    case Cancelled => {}
    case Interrupted => {Starting, Cancelled}
  }

  datatype Task = Task(
    provider: Provider, threadId: ThreadId, status: Status,
    createdAt: int, updatedAt: int, startedAt: Option<int>, completedAt: Option<int>)

  datatype Session = Session(provider: Provider, sessionId: string)

  datatype Worktree = Worktree(repositoryPath: string, worktreePath: string, branchName: string, removedAt: Option<int>)

  /** The result table keeps the outcome; the provider is read back from the task row. */
  datatype Tables = Tables(
    tasks: map<TaskId, Task>,
    worktrees: map<TaskId, Worktree>,
    sessions: map<TaskId, Session>,
    results: map<TaskId, Outcome>)

  datatype TaskError =
    | ProjectNotFound | TaskNotFound | UniqueViolation
    | ProviderMismatch | SessionAlreadyAttached
    | NoExpectedState | StaleTransition | IllegalTransition
    | NotTerminal | NoSession | NoWorktree | OutcomeMismatch | ResultExists

  // ---------------------------------------------------------------- statements

  predicate UniqueKeysFree(db: Tables, id: TaskId, threadId: ThreadId, w: Worktree) {
    && id !in db.tasks && id !in db.worktrees
    && (forall t :: t in db.tasks ==> db.tasks[t].threadId != threadId)
    && (forall t :: t in db.worktrees ==>
          && db.worktrees[t].worktreePath != w.worktreePath
          && !(db.worktrees[t].repositoryPath == w.repositoryPath && db.worktrees[t].branchName == w.branchName))
  }

  /** One transaction inserting the task and its worktree row. */
  function CreateWithWorktree(db: Tables, id: TaskId, projectActive: bool, provider: Provider, threadId: ThreadId,
                              w: Worktree, now: int): Result<Tables, TaskError>
  {
    if !projectActive then Err(ProjectNotFound)
    else if !UniqueKeysFree(db, id, threadId, w) then Err(UniqueViolation)
    else Ok(db.(tasks := db.tasks[id := Task(provider, threadId, Created, now, now, None, None)],
                worktrees := db.worktrees[id := w.(removedAt := None)]))
  }

  function AttachProviderSession(db: Tables, id: TaskId, s: Session): Result<Tables, TaskError> {
    if id !in db.tasks then Err(TaskNotFound)
    else if db.tasks[id].provider != s.provider then Err(ProviderMismatch)
    else if id in db.sessions then Err(SessionAlreadyAttached)
    else if exists t :: t in db.sessions && db.sessions[t] == s then Err(UniqueViolation)
    else Ok(db.(sessions := db.sessions[id := s]))
  }

  function Moved(t: Task, next: Status, now: int): Task {
    t.(status := next, updatedAt := now,
       startedAt := if next == Running && t.startedAt.None? then Some(now) else t.startedAt,
       completedAt := if Terminal(next) then Some(now) else t.completedAt)
  }

  function Transition(db: Tables, id: TaskId, expected: set<Status>, next: Status, now: int): Result<Tables, TaskError> {
    if expected == {} then Err(NoExpectedState)
    else if id !in db.tasks then Err(TaskNotFound)
    else if db.tasks[id].status !in expected then Err(StaleTransition)
    else if next !in LegalTransitions(db.tasks[id].status) then Err(IllegalTransition)
    else Ok(db.(tasks := db.tasks[id := Moved(db.tasks[id], next, now)]))
  }

  function ReopenForContinuation(db: Tables, id: TaskId, now: int): Result<Tables, TaskError> {
    if id !in db.tasks then Err(TaskNotFound)
    else if !Terminal(db.tasks[id].status) then Err(NotTerminal)
    else if id !in db.sessions then Err(NoSession)
    else if id !in db.worktrees || db.worktrees[id].removedAt.Some? then Err(NoWorktree)
    else Ok(db.(results := db.results - {id},
                tasks := db.tasks[id := db.tasks[id].(status := Starting, completedAt := None, updatedAt := now)]))
  }

  function SaveResult(db: Tables, id: TaskId, provider: Provider, outcome: Outcome): Result<Tables, TaskError> {
    if id !in db.tasks then Err(TaskNotFound)
    else if !Terminal(db.tasks[id].status) then Err(NotTerminal)
    else if db.tasks[id].provider != provider then Err(ProviderMismatch)
    else if db.tasks[id].status != outcome then Err(OutcomeMismatch)
    else if id in db.results then Err(ResultExists)
    else Ok(db.(results := db.results[id := outcome]))
  }

  function MarkWorktreeRemoved(db: Tables, id: TaskId, at: int): Result<Tables, TaskError> {
    if id in db.worktrees && db.worktrees[id].removedAt.None?
    then Ok(db.(worktrees := db.worktrees[id := db.worktrees[id].(removedAt := Some(at))]))
    else Err(NoWorktree)
  }

  predicate Recoverable(s: Status) { s in {Starting, Running, WaitingForUser} }

  // ---------------------------------------------------------------- the invariant of the tables

  ghost predicate TaskConsistent(db: Tables, t: TaskId) {
    && (t in db.results ==> t in db.tasks && db.results[t] == db.tasks[t].status)
    && (t in db.tasks ==> (db.tasks[t].completedAt.Some? <==> Terminal(db.tasks[t].status)))
    && (t in db.sessions ==> t in db.tasks && db.sessions[t].provider == db.tasks[t].provider)
    && (t in db.tasks <==> t in db.worktrees)
  }

  /** A result exists only for a terminal task, with the task's own status as its outcome; `completedAt`
      is set exactly for terminal tasks; session and task agree on the provider; keys are unique. */
  ghost predicate Consistent(db: Tables) {
    && (forall t :: TaskConsistent(db, t))
    && (forall t, u :: t in db.sessions && u in db.sessions && db.sessions[t] == db.sessions[u] ==> t == u)
    && (forall t, u :: t in db.tasks && u in db.tasks && db.tasks[t].threadId == db.tasks[u].threadId ==> t == u)
  }

  lemma CreateConsistent(db: Tables, id: TaskId, projectActive: bool, provider: Provider, threadId: ThreadId, w: Worktree, now: int)
    requires Consistent(db)
    ensures var r := CreateWithWorktree(db, id, projectActive, provider, threadId, w, now);
            r.Ok? ==> Consistent(r.value)
  {
    var r := CreateWithWorktree(db, id, projectActive, provider, threadId, w, now);
    if r.Ok? {
      assert TaskConsistent(db, id);
      forall t ensures TaskConsistent(r.value, t) {
        assert TaskConsistent(db, t);
      }
    }
  }

  lemma AttachConsistent(db: Tables, id: TaskId, s: Session)
    requires Consistent(db)
    ensures var r := AttachProviderSession(db, id, s); r.Ok? ==> Consistent(r.value)
  {
    var r := AttachProviderSession(db, id, s);
    if r.Ok? {
      forall t ensures TaskConsistent(r.value, t) {
        assert TaskConsistent(db, t);
      }
    }
  }

  /** Exactly which accepted transitions keep the tables consistent. The legal-transition table also
      lets an interrupted task start again, which leaves its completion time set, and lets it become
      cancelled, which leaves a stale result; every other accepted transition is safe. */
  lemma TransitionConsistentExactly(db: Tables, id: TaskId, expected: set<Status>, next: Status, now: int)
    requires Consistent(db) && Transition(db, id, expected, next, now).Ok?
    ensures Consistent(Transition(db, id, expected, next, now).value) <==>
            !(db.tasks[id].status == Interrupted && (next == Starting || id in db.results))
  {
    var db' := Transition(db, id, expected, next, now).value;
    assert TaskConsistent(db, id);
    if db.tasks[id].status == Interrupted && (next == Starting || id in db.results) {
      assert !TaskConsistent(db', id);
    } else {
      forall t ensures TaskConsistent(db', t) {
        assert TaskConsistent(db, t);
      }
    }
  }

  /** The case the coordinator uses: a task that is not terminal. */
  lemma LiveTransitionConsistent(db: Tables, id: TaskId, expected: set<Status>, next: Status, now: int)
    requires Consistent(db)
    requires id in db.tasks && !Terminal(db.tasks[id].status)
    ensures var r := Transition(db, id, expected, next, now); r.Ok? ==> Consistent(r.value)
  {
    if Transition(db, id, expected, next, now).Ok? {
      TransitionConsistentExactly(db, id, expected, next, now);
    }
  }

  lemma ReopenConsistent(db: Tables, id: TaskId, now: int)
    requires Consistent(db)
    ensures var r := ReopenForContinuation(db, id, now); r.Ok? ==> Consistent(r.value)
  {
    var r := ReopenForContinuation(db, id, now);
    if r.Ok? {
      forall t ensures TaskConsistent(r.value, t) {
        assert TaskConsistent(db, t);
      }
    }
  }

  lemma SaveConsistent(db: Tables, id: TaskId, provider: Provider, outcome: Outcome)
    requires Consistent(db)
    ensures var r := SaveResult(db, id, provider, outcome); r.Ok? ==> Consistent(r.value)
  {
    var r := SaveResult(db, id, provider, outcome);
    if r.Ok? {
      forall t ensures TaskConsistent(r.value, t) {
        assert TaskConsistent(db, t);
      }
    }
  }

  // ---------------------------------------------------------------- what each statement does, exactly

  /** The statuses: a started task can end in any way but completed before it runs, a running task and a
      waiting one lead to each other, and of the ended ones only an interrupted task moves again. */
  lemma TransitionTable(s: Status, next: Status)
    ensures Terminal(s) <==> s !in {Created, Starting, Running, WaitingForUser}
    ensures s == Created ==> (next in LegalTransitions(s) <==> next in {Starting, Cancelled})
    ensures s in {Starting, Running, WaitingForUser} && Terminal(next) ==>
              (next in LegalTransitions(s) <==> !(s == Starting && next == Completed))
    ensures s in {Starting, Running, WaitingForUser} && !Terminal(next) ==>
              (next in LegalTransitions(s) <==>
                (s, next) in {(Starting, Running), (Running, WaitingForUser), (WaitingForUser, Running)})
    ensures Terminal(s) ==> (next in LegalTransitions(s) <==> s == Interrupted && next in {Starting, Cancelled})
  {
  }

  /** A status update is accepted for an expected status with a legal successor, and then changes that one
      row: the first start and the end leave their times. */
  lemma TransitionExactly(db: Tables, id: TaskId, expected: set<Status>, next: Status, now: int)
    ensures var r := Transition(db, id, expected, next, now);
            && (r.Ok? <==> id in db.tasks && db.tasks[id].status in expected && next in LegalTransitions(db.tasks[id].status))
            && (r.Ok? ==>
                  && id in r.value.tasks && r.value == db.(tasks := db.tasks[id := r.value.tasks[id]])
                  && var before, after := db.tasks[id], r.value.tasks[id];
                     && after.status == next && after.updatedAt == now
                     && after.provider == before.provider && after.threadId == before.threadId && after.createdAt == before.createdAt
                     && (before.startedAt.Some? || next != Running ==> after.startedAt == before.startedAt)
                     && (before.startedAt.None? && next == Running ==> after.startedAt == Some(now))
                     && (Terminal(next) ==> after.completedAt == Some(now))
                     && (!Terminal(next) ==> after.completedAt == before.completedAt))
            && (r == Err(NoExpectedState) <==> expected == {})
            && (r == Err(TaskNotFound) <==> expected != {} && id !in db.tasks)
            && (r == Err(StaleTransition) <==> expected != {} && id in db.tasks && db.tasks[id].status !in expected)
  {
  }

  /** Creating needs a live project and four unused keys, and inserts a row in `created` and its worktree. */
  lemma CreateExactly(db: Tables, id: TaskId, projectActive: bool, provider: Provider, threadId: ThreadId, w: Worktree, now: int)
    ensures var r := CreateWithWorktree(db, id, projectActive, provider, threadId, w, now);
            && (r.Ok? <==>
                  && projectActive && id !in db.tasks && id !in db.worktrees
                  && (forall t :: t in db.tasks ==> db.tasks[t].threadId != threadId)
                  && (forall t :: t in db.worktrees ==> db.worktrees[t].worktreePath != w.worktreePath)
                  && (forall t :: t in db.worktrees ==>
                        db.worktrees[t].repositoryPath != w.repositoryPath || db.worktrees[t].branchName != w.branchName))
            && (r == Err(ProjectNotFound) <==> !projectActive) && (r.Err? ==> r.error in {ProjectNotFound, UniqueViolation})
            && (r.Ok? ==>
                  && r.value.sessions == db.sessions && r.value.results == db.results
                  && r.value.tasks == db.tasks[id := Task(provider, threadId, Created, now, now, None, None)]
                  && r.value.worktrees == db.worktrees[id := Worktree(w.repositoryPath, w.worktreePath, w.branchName, None)])
  {
  }

  /** A session is attached once per task, by the task's provider, and to no other task. */
  lemma AttachExactly(db: Tables, id: TaskId, s: Session)
    ensures var r := AttachProviderSession(db, id, s);
            && (r.Ok? <==> id in db.tasks && db.tasks[id].provider == s.provider && id !in db.sessions && s !in db.sessions.Values)
            && (r.Ok? ==> r.value.sessions == db.sessions[id := s] && r.value == db.(sessions := r.value.sessions))
            && (r == Err(TaskNotFound) <==> id !in db.tasks)
            && (r == Err(ProviderMismatch) <==> id in db.tasks && db.tasks[id].provider != s.provider)
            && (r == Err(SessionAlreadyAttached) <==> id in db.tasks && db.tasks[id].provider == s.provider && id in db.sessions)
  {
  }

  /** Reopening needs an ended task with a session and a worktree that is still there. */
  lemma ReopenExactly(db: Tables, id: TaskId, now: int)
    ensures var r := ReopenForContinuation(db, id, now);
            && (r.Ok? <==>
                  && id in db.tasks && db.tasks[id].status in {Completed, Failed, Cancelled, Interrupted}
                  && id in db.sessions && id in db.worktrees && db.worktrees[id].removedAt.None?)
            && (r.Ok? ==>
                  && r.value.results == db.results - {id} && r.value.sessions == db.sessions && r.value.worktrees == db.worktrees
                  && r.value.tasks == db.tasks[id := Task(db.tasks[id].provider, db.tasks[id].threadId, Starting,
                                                          db.tasks[id].createdAt, now, db.tasks[id].startedAt, None)])
            && (r == Err(TaskNotFound) <==> id !in db.tasks)
            && (r == Err(NotTerminal) <==> id in db.tasks && db.tasks[id].status in {Created, Starting, Running, WaitingForUser})
  {
    if id in db.tasks {
      TransitionTable(db.tasks[id].status, Starting);
    }
  }

  /** A result is stored once, for an ended task, by its provider and with its status. */
  lemma SaveExactly(db: Tables, id: TaskId, provider: Provider, outcome: Outcome)
    ensures var r := SaveResult(db, id, provider, outcome);
            && (r.Ok? <==> id in db.tasks && db.tasks[id].provider == provider && db.tasks[id].status == outcome && id !in db.results)
            && (r.Ok? ==> r.value.results == db.results[id := outcome] && r.value == db.(results := r.value.results))
            && (r == Err(TaskNotFound) <==> id !in db.tasks)
            && (r == Err(NotTerminal) <==> id in db.tasks && db.tasks[id].status in {Created, Starting, Running, WaitingForUser})
            && (r == Err(ProviderMismatch) <==> id in db.tasks && Terminal(db.tasks[id].status) && db.tasks[id].provider != provider)
  {
    if id in db.tasks {
      TransitionTable(db.tasks[id].status, Starting);
    }
  }

  lemma WorktreeRemovedExactly(db: Tables, id: TaskId, at: int)
    ensures var r := MarkWorktreeRemoved(db, id, at);
            && (r.Ok? <==> id in db.worktrees && db.worktrees[id].removedAt.None?)
            && (r.Ok? ==> id in r.value.worktrees && r.value.worktrees[id] == db.worktrees[id].(removedAt := Some(at))
                          && r.value == db.(worktrees := db.worktrees[id := r.value.worktrees[id]]))
  {
  }

  // ---------------------------------------------------------------- the repository

  class TaskRepository {
    var tasks: map<TaskId, Task>
    var worktrees: map<TaskId, Worktree>
    var sessions: map<TaskId, Session>
    var results: map<TaskId, Outcome>

    ghost function View(): Tables
      reads this
    {
      Tables(tasks, worktrees, sessions, results)
    }

    constructor ()
      ensures View() == Tables(map[], map[], map[], map[])
    {
      tasks, worktrees, sessions, results := map[], map[], map[], map[];
    }

    method Create(id: TaskId, projectActive: bool, provider: Provider, threadId: ThreadId, w: Worktree, now: int)
      returns (r: Result<(), TaskError>)
      modifies this
      ensures match CreateWithWorktree(old(View()), id, projectActive, provider, threadId, w, now)
              case Ok(db) => r == Ok(()) && View() == db
              case Err(e) => r == Err(e) && View() == old(View())
    {
      if !projectActive {
        return Err(ProjectNotFound);
      }
      if id in tasks || (exists t :: t in tasks && tasks[t].threadId == threadId) {
        return Err(UniqueViolation);
      }
      if id in worktrees
         || (exists t :: t in worktrees && worktrees[t].worktreePath == w.worktreePath)
         || (exists t :: t in worktrees && worktrees[t].repositoryPath == w.repositoryPath && worktrees[t].branchName == w.branchName)
      {
        return Err(UniqueViolation);
      }
      tasks := tasks[id := Task(provider, threadId, Created, now, now, None, None)];
      worktrees := worktrees[id := w.(removedAt := None)];
      return Ok(());
    }

    method Attach(id: TaskId, s: Session) returns (r: Result<(), TaskError>)
      modifies this`sessions
      ensures match AttachProviderSession(old(View()), id, s)
              case Ok(db) => r == Ok(()) && View() == db
              case Err(e) => r == Err(e) && View() == old(View())
    {
      if id !in tasks {
        return Err(TaskNotFound);
      }
      if tasks[id].provider != s.provider {
        return Err(ProviderMismatch);
      }
      if id in sessions {
        return Err(SessionAlreadyAttached);
      }
      if s in sessions.Values {
        return Err(UniqueViolation);
      }
      sessions := sessions[id := s];
      return Ok(());
    }

    method Move(id: TaskId, expected: set<Status>, next: Status, now: int) returns (r: Result<(), TaskError>)
      modifies this`tasks
      ensures match Transition(old(View()), id, expected, next, now)
              case Ok(db) => r == Ok(()) && View() == db
              case Err(e) => r == Err(e) && View() == old(View())
    {
      if expected == {} {
        return Err(NoExpectedState);
      }
      if id !in tasks {
        return Err(TaskNotFound);
      }
      var current := tasks[id];
      if current.status !in expected {
        return Err(StaleTransition);
      }
      if next !in LegalTransitions(current.status) {
        return Err(IllegalTransition);
      }
      var updated := current.(status := next, updatedAt := now);
      if next == Running && updated.startedAt.None? {
        updated := updated.(startedAt := Some(now));
      }
      if Terminal(next) {
        updated := updated.(completedAt := Some(now));
      }
      tasks := tasks[id := updated];
      return Ok(());
    }

    method Reopen(id: TaskId, now: int) returns (r: Result<(), TaskError>)
      modifies this`tasks, this`results
      ensures match ReopenForContinuation(old(View()), id, now)
              case Ok(db) => r == Ok(()) && View() == db
              case Err(e) => r == Err(e) && View() == old(View())
    {
      if id !in tasks {
        return Err(TaskNotFound);
      }
      if !Terminal(tasks[id].status) {
        return Err(NotTerminal);
      }
      if id !in sessions {
        return Err(NoSession);
      }
      if id !in worktrees || worktrees[id].removedAt.Some? {
        return Err(NoWorktree);
      }
      results := results - {id};
      tasks := tasks[id := tasks[id].(status := Starting, completedAt := None, updatedAt := now)];
      return Ok(());
    }

    method Save(id: TaskId, provider: Provider, outcome: Outcome) returns (r: Result<(), TaskError>)
      modifies this`results
      ensures match SaveResult(old(View()), id, provider, outcome)
              case Ok(db) => r == Ok(()) && View() == db
              case Err(e) => r == Err(e) && View() == old(View())
    {
      if id !in tasks {
        return Err(TaskNotFound);
      }
      if !Terminal(tasks[id].status) {
        return Err(NotTerminal);
      }
      if tasks[id].provider != provider {
        return Err(ProviderMismatch);
      }
      if tasks[id].status != outcome {
        return Err(OutcomeMismatch);
      }
      if id in results {
        return Err(ResultExists);
      }
      results := results[id := outcome];
      return Ok(());
    }

    /** The rows restart recovery looks at: started, not finished. */
    method ListRecoverable() returns (ids: seq<TaskId>)
      ensures forall id :: id in ids <==> id in tasks && Recoverable(tasks[id].status)
      ensures forall i, j :: 0 <= i < j < |ids| ==> ids[i] != ids[j]
    {
      ids := [];
      var rest := tasks.Keys;
      while rest != {}
        invariant rest <= tasks.Keys
        invariant forall id :: id in ids <==> id in tasks && id !in rest && Recoverable(tasks[id].status)
        invariant forall i, j :: 0 <= i < j < |ids| ==> ids[i] != ids[j]
        decreases rest
      {
        var id :| id in rest;
        rest := rest - {id};
        if Recoverable(tasks[id].status) {
          ids := ids + [id];
        }
      }
    }
  }
}
