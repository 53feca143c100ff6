/**
 The three-level binding tables: project bindings, surfaces below them, runs below those. `Constraints`
 is everything the schema declares; a statement that would break it fails with `SqlConstraint`.
 Identities arrive trimmed, and a project name already resolved to its id.
 */
module Bindings {
  import opened Common

  type ProjectId = string
  type SurfaceId = string
  type RunId = string

  datatype ProjectBinding = ProjectBinding(factoryId: string, guild: string, createdAt: int, updatedAt: int, retiredAt: Option<int>)

  datatype Surface = Surface(
    project: ProjectId, guild: string, channel: string,
    thread: Option<string>, message: Option<string>, activity: Option<string>,
    createdAt: int, updatedAt: int, retiredAt: Option<int>)

  datatype Run = Run(project: ProjectId, surface: SurfaceId, createdAt: int, updatedAt: int, retiredAt: Option<int>)

  /** `projects` maps each project to its archive time. */
  datatype Db = Db(
    projects: map<ProjectId, Option<int>>, bindings: map<ProjectId, ProjectBinding>,
    surfaces: map<SurfaceId, Surface>, runs: map<RunId, Run>)

  datatype BindingError =
    | Required | ProjectNotFound | ProjectNotBound | ProjectBindingConflict | FactoryProjectTaken
    | SurfaceGuildMismatch | SurfaceIdentityConflict | SurfaceBindingConflict | SurfaceNotFound
    | RunProjectMismatch | SurfaceHasRun | RunBindingConflict
    | ActivityConflict | ActivityTaken | SqlConstraint

  // ---------------------------------------------------------------- the schema

  predicate BindingKey(db: Db, p: ProjectId) { p in db.bindings ==> p in db.projects }

  predicate SameFactory(db: Db, p: ProjectId, q: ProjectId) {
    p in db.bindings && q in db.bindings && db.bindings[p].factoryId == db.bindings[q].factoryId
  }

  predicate SurfaceKey(db: Db, s: SurfaceId) {
    s in db.surfaces ==>
      && db.surfaces[s].project in db.bindings && db.bindings[db.surfaces[s].project].guild == db.surfaces[s].guild
      && (db.surfaces[s].thread.Some? || db.surfaces[s].message.Some? || db.surfaces[s].activity.Some?)
  }

  predicate SameIdentity(a: Surface, b: Surface) {
    || (a.thread.Some? && a.thread == b.thread && a.guild == b.guild && a.channel == b.channel)
    || (a.message.Some? && a.message == b.message)
    || (a.activity.Some? && a.activity == b.activity)
  }

  predicate Clash(db: Db, s: SurfaceId, t: SurfaceId) {
    s in db.surfaces && t in db.surfaces && SameIdentity(db.surfaces[s], db.surfaces[t])
  }

  predicate RunKey(db: Db, r: RunId) {
    r in db.runs ==> db.runs[r].surface in db.surfaces && db.surfaces[db.runs[r].surface].project == db.runs[r].project
  }

  predicate ActiveOn(db: Db, run: RunId, surface: SurfaceId) {
    run in db.runs && db.runs[run].surface == surface && db.runs[run].retiredAt.None?
  }

  predicate ShareSurface(db: Db, r: RunId, q: RunId) {
    r in db.runs && ActiveOn(db, r, db.runs[r].surface) && ActiveOn(db, q, db.runs[r].surface)
  }

  /** Foreign keys, the identity check and the unique indexes of the three tables. */
  ghost predicate Constraints(db: Db) {
    && (forall p :: BindingKey(db, p)) && (forall p, q :: SameFactory(db, p, q) ==> p == q)
    && (forall s :: SurfaceKey(db, s)) && (forall s, t :: Clash(db, s, t) ==> s == t)
    && (forall r :: RunKey(db, r)) && (forall r, q :: ShareSurface(db, r, q) ==> r == q)
  }

  /** A single statement: committed if the schema allows it. */
  ghost function Committed(db: Db): Result<Db, BindingError> {
    if Constraints(db) then Ok(db) else Err(SqlConstraint)
  }

  // ---------------------------------------------------------------- operations

  predicate ProjectActive(db: Db, p: ProjectId) { p in db.projects && db.projects[p].None? }

  predicate BindingActive(db: Db, p: ProjectId) { ProjectActive(db, p) && p in db.bindings && db.bindings[p].retiredAt.None? }

  ghost function BindProject(db: Db, p: ProjectId, factoryId: string, guild: string, now: int): Result<Db, BindingError> {
    if !ProjectActive(db, p) then Err(ProjectNotFound)
    else if factoryId == "" || guild == "" then Err(Required)
    else if p in db.bindings then
      var existing := db.bindings[p];
      if existing.factoryId != factoryId || existing.guild != guild then Err(ProjectBindingConflict)
      else if existing.retiredAt.None? then Ok(db)
      else Committed(db.(bindings := db.bindings[p := existing.(retiredAt := None, updatedAt := now)]))
    else if exists q :: q in db.bindings && db.bindings[q].factoryId == factoryId && q != p then Err(FactoryProjectTaken)
    else Committed(db.(bindings := db.bindings[p := ProjectBinding(factoryId, guild, now, now, None)]))
  }

  /** The identities a surface is looked up by; an empty one counts as absent. */
  datatype Identity = Identity(guild: string, channel: string, thread: Option<string>, message: Option<string>, activity: Option<string>)

  predicate Matches(s: Surface, i: Identity) {
    || (i.activity.Some? && s.activity == i.activity)
    || (i.message.Some? && s.message == i.message)
    || (i.thread.Some? && s.guild == i.guild && s.channel == i.channel && s.thread == i.thread)
  }

  predicate Reconciles(current: Option<string>, incoming: Option<string>) {
    current.None? || incoming.None? || current == incoming
  }

  function Reconciled(current: Option<string>, incoming: Option<string>): Option<string> {
    if current.Some? then current else incoming
  }

  ghost predicate Candidate(db: Db, i: Identity, id: SurfaceId) { id in db.surfaces && Matches(db.surfaces[id], i) }

  function WithIdentity(s: Surface, i: Identity): Surface {
    s.(thread := Reconciled(s.thread, i.thread), message := Reconciled(s.message, i.message),
       activity := Reconciled(s.activity, i.activity))
  }

  ghost function RebindSurface(db: Db, p: ProjectId, i: Identity, id: SurfaceId, now: int): Result<Db, BindingError>
    requires id in db.surfaces
  {
    var s := db.surfaces[id];
    if s.project != p || s.guild != i.guild || s.channel != i.channel then Err(SurfaceBindingConflict)
    else if !Reconciles(s.thread, i.thread) || !Reconciles(s.message, i.message) || !Reconciles(s.activity, i.activity)
    then Err(SurfaceBindingConflict)
    else if s.retiredAt.None? && WithIdentity(s, i) == s then Ok(db)
    else Committed(db.(surfaces := db.surfaces[id := WithIdentity(s, i).(retiredAt := None, updatedAt := now)]))
  }

  /** `newId` is the id a new surface row gets. */
  ghost function BindSurface(db: Db, p: ProjectId, i: Identity, newId: SurfaceId, now: int): Result<Db, BindingError> {
    if !ProjectActive(db, p) then Err(ProjectNotFound)
    else if !BindingActive(db, p) then Err(ProjectNotBound)
    else if i.guild == "" || i.channel == "" then Err(Required)
    else if i.thread.None? && i.message.None? && i.activity.None? then Err(Required)
    else if db.bindings[p].guild != i.guild then Err(SurfaceGuildMismatch)
    else if exists a, b :: Candidate(db, i, a) && Candidate(db, i, b) && a != b then Err(SurfaceIdentityConflict)
    else if exists a :: Candidate(db, i, a) then
      var id :| Candidate(db, i, id);
      RebindSurface(db, p, i, id, now)
    else if newId in db.surfaces then Err(SqlConstraint)
    else Committed(db.(surfaces := db.surfaces[newId := Surface(p, i.guild, i.channel, i.thread, i.message, i.activity, now, now, None)]))
  }

  predicate HasOtherRun(db: Db, surface: SurfaceId, run: RunId) {
    exists r :: r in db.runs && ActiveOn(db, r, surface) && r != run
  }

  ghost function BindRun(db: Db, p: ProjectId, surface: SurfaceId, run: RunId, now: int): Result<Db, BindingError> {
    if !ProjectActive(db, p) then Err(ProjectNotFound)
    else if !BindingActive(db, p) then Err(ProjectNotBound)
    else if run == "" || surface == "" then Err(Required)
    else if surface !in db.surfaces || db.surfaces[surface].retiredAt.Some? then Err(SurfaceNotFound)
    else if db.surfaces[surface].project != p then Err(RunProjectMismatch)
    else if HasOtherRun(db, surface, run) then Err(SurfaceHasRun)
    else if run in db.runs then
      var existing := db.runs[run];
      if existing.project != p || existing.surface != surface then Err(RunBindingConflict)
      else if existing.retiredAt.None? then Ok(db)
      else Committed(db.(runs := db.runs[run := existing.(retiredAt := None, updatedAt := now)]))
    else Committed(db.(runs := db.runs[run := Run(p, surface, now, now, None)]))
  }

  /** Attaching an Activity instance to a surface. */
  ghost function BindActivity(db: Db, surface: SurfaceId, activity: string, now: int): Result<Db, BindingError> {
    if surface == "" || activity == "" then Err(Required)
    else if surface !in db.surfaces || db.surfaces[surface].retiredAt.Some?
            || !ProjectActive(db, db.surfaces[surface].project) then Err(SurfaceNotFound)
    else if !Reconciles(db.surfaces[surface].activity, Some(activity)) then Err(ActivityConflict)
    else if exists s :: s in db.surfaces && db.surfaces[s].activity == Some(activity) && s != surface then Err(ActivityTaken)
    else if db.surfaces[surface].activity == Some(activity) then Ok(db)
    else Committed(db.(surfaces := db.surfaces[surface := db.surfaces[surface].(activity := Some(activity), updatedAt := now)]))
  }

  function RetiredRun(r: Run, now: int): Run { if r.retiredAt.None? then r.(retiredAt := Some(now), updatedAt := now) else r }

  function RetiredSurface(s: Surface, now: int): Surface { if s.retiredAt.None? then s.(retiredAt := Some(now), updatedAt := now) else s }

  function RetiredBinding(b: ProjectBinding, now: int): ProjectBinding {
    if b.retiredAt.None? then b.(retiredAt := Some(now), updatedAt := now) else b
  }

  function RetireRun(db: Db, run: RunId, now: int): Db {
    if run in db.runs then db.(runs := db.runs[run := RetiredRun(db.runs[run], now)]) else db
  }

  function RetireSurface(db: Db, surface: SurfaceId, now: int): Db {
    db.(surfaces := if surface in db.surfaces then db.surfaces[surface := RetiredSurface(db.surfaces[surface], now)] else db.surfaces,
        runs := map r | r in db.runs :: if db.runs[r].surface == surface then RetiredRun(db.runs[r], now) else db.runs[r])
  }

  /** `retireProject`, and the trigger that archiving a project fires. */
  function RetireProject(db: Db, p: ProjectId, now: int): Db {
    db.(bindings := if p in db.bindings then db.bindings[p := RetiredBinding(db.bindings[p], now)] else db.bindings,
        surfaces := map s | s in db.surfaces :: if db.surfaces[s].project == p then RetiredSurface(db.surfaces[s], now) else db.surfaces[s],
        runs := map r | r in db.runs :: if db.runs[r].project == p then RetiredRun(db.runs[r], now) else db.runs[r])
  }

  function Archive(db: Db, p: ProjectId, now: int): Db {
    if ProjectActive(db, p) then RetireProject(db.(projects := db.projects[p := Some(now)]), p, now) else db
  }

  /** Creating a project, or reviving an archived one under its old id. */
  function CreateProject(db: Db, p: ProjectId): Db { db.(projects := db.projects[p := None]) }

  // ---------------------------------------------------------------- the invariant

  predicate RunLayer(db: Db, r: RunId) {
    r in db.runs && db.runs[r].retiredAt.None? ==>
      db.runs[r].surface in db.surfaces && db.surfaces[db.runs[r].surface].retiredAt.None?
  }

  predicate SurfaceLayer(db: Db, s: SurfaceId) {
    s in db.surfaces && db.surfaces[s].retiredAt.None? ==>
      db.surfaces[s].project in db.bindings && db.bindings[db.surfaces[s].project].retiredAt.None?
  }

  predicate BindingLayer(db: Db, p: ProjectId) {
    p in db.bindings && db.bindings[p].retiredAt.None? ==> ProjectActive(db, p)
  }

  /** An active run sits on an active surface, that on an active project binding, that on a live project. */
  ghost predicate Layered(db: Db) {
    && (forall r :: RunLayer(db, r)) && (forall s :: SurfaceLayer(db, s)) && (forall p :: BindingLayer(db, p))
  }

  ghost predicate Hierarchy(db: Db) { Constraints(db) && Layered(db) }

  datatype Event =
    | ProjectCreated(p: ProjectId)
    | ProjectArchived(p: ProjectId, now: int)
    | ProjectBound(p: ProjectId, factoryId: string, guild: string, now: int)
    | SurfaceBound(p: ProjectId, identity: Identity, newId: SurfaceId, now: int)
    | RunBound(p: ProjectId, surface: SurfaceId, run: RunId, now: int)
    | ActivityBound(surface: SurfaceId, activity: string, now: int)
    | ProjectRetired(p: ProjectId, now: int)
    | SurfaceRetired(surface: SurfaceId, now: int)
    | RunRetired(run: RunId, now: int)

  ghost function Call(db: Db, e: Event): Result<Db, BindingError> {
    match e
    case ProjectCreated(p) => Ok(CreateProject(db, p))
    case ProjectArchived(p, now) => Ok(Archive(db, p, now))
    case ProjectBound(p, factoryId, guild, now) => BindProject(db, p, factoryId, guild, now)
    case SurfaceBound(p, identity, newId, now) => BindSurface(db, p, identity, newId, now)
    case RunBound(p, surface, run, now) => BindRun(db, p, surface, run, now)
    case ActivityBound(surface, activity, now) => BindActivity(db, surface, activity, now)
    case ProjectRetired(p, now) => Ok(RetireProject(db, p, now))
    case SurfaceRetired(surface, now) => Ok(RetireSurface(db, surface, now))
    case RunRetired(run, now) => Ok(RetireRun(db, run, now))
  }

  /** A call that throws leaves the tables as they were. */
  ghost function Step(db: Db, e: Event): Db {
    match Call(db, e) case Ok(next) => next case Err(_) => db
  }

  ghost function RunAll(db: Db, es: seq<Event>): Db
    decreases |es|
  {
    if es == [] then db else Step(RunAll(db, es[..|es| - 1]), es[|es| - 1])
  }

  /** New surface ids are fresh, as random identifiers are. */
  predicate FreshIds(db: Db, e: Event) { e.SurfaceBound? ==> e.newId !in db.surfaces }

  // ---------------------------------------------------------------- what every call keeps

  /** The prechecks alone imply the schema: no constraint ever fires, and the layers stay. */
  ghost predicate Sound(db: Db, r: Result<Db, BindingError>) {
    && r != Err(SqlConstraint)
    && (r.Ok? ==> Hierarchy(r.value))
  }

  /** One binding row added or made active for a live project, under a free factory id. */
  lemma OneBinding(db: Db, db': Db, p: ProjectId)
    requires Hierarchy(db) && ProjectActive(db, p) && p in db'.bindings
    requires db' == db.(bindings := db.bindings[p := db'.bindings[p]]) && db'.bindings[p].retiredAt.None?
    requires p in db.bindings ==> db'.bindings[p].guild == db.bindings[p].guild && db'.bindings[p].factoryId == db.bindings[p].factoryId
    requires forall q :: q in db.bindings && q != p ==> db.bindings[q].factoryId != db'.bindings[p].factoryId
    ensures Hierarchy(db')
  {
    forall q ensures BindingKey(db', q) && BindingLayer(db', q) {
      assert BindingKey(db, q) && BindingLayer(db, q);
    }
    forall q, o | SameFactory(db', q, o) ensures q == o {
      assert q != p && o != p ==> SameFactory(db, q, o);
    }
    forall s ensures SurfaceKey(db', s) && SurfaceLayer(db', s) {
      assert SurfaceKey(db, s) && SurfaceLayer(db, s);
    }
    forall s, t | Clash(db', s, t) ensures s == t {
      assert Clash(db, s, t);
    }
    RunsUntouched(db, db');
  }

  /** The run table, when surfaces only keep or gain activity and keep their projects. */
  lemma RunsUntouched(db: Db, db': Db)
    requires Hierarchy(db) && db'.runs == db.runs
    requires forall s :: s in db.surfaces ==>
               && s in db'.surfaces && db'.surfaces[s].project == db.surfaces[s].project
               && (db.surfaces[s].retiredAt.None? ==> db'.surfaces[s].retiredAt.None?)
    ensures (forall r :: RunKey(db', r)) && (forall r :: RunLayer(db', r)) && (forall r, q :: ShareSurface(db', r, q) ==> r == q)
  {
    forall r ensures RunKey(db', r) && RunLayer(db', r) {
      assert RunKey(db, r) && RunLayer(db, r);
    }
    forall r, q | ShareSurface(db', r, q) ensures r == q {
      assert ShareSurface(db, r, q);
    }
  }

  lemma BindProjectSound(db: Db, p: ProjectId, factoryId: string, guild: string, now: int)
    requires Hierarchy(db)
    ensures Sound(db, BindProject(db, p, factoryId, guild, now))
  {
    if ProjectActive(db, p) {
      if p in db.bindings {
        var b := db.bindings[p].(retiredAt := None, updatedAt := now);
        forall q | q in db.bindings && q != p ensures db.bindings[q].factoryId != b.factoryId {
          assert SameFactory(db, q, p) ==> q == p;
        }
        OneBinding(db, db.(bindings := db.bindings[p := b]), p);
      } else if forall q :: q in db.bindings && q != p ==> db.bindings[q].factoryId != factoryId {
        OneBinding(db, db.(bindings := db.bindings[p := ProjectBinding(factoryId, guild, now, now, None)]), p);
      }
    }
  }

  /** One surface row added or rewritten, in its own project, without taking another's identity. */
  lemma OneSurface(db: Db, db': Db, id: SurfaceId)
    requires Hierarchy(db) && id in db'.surfaces && db' == db.(surfaces := db.surfaces[id := db'.surfaces[id]])
    requires id in db.surfaces ==>
               && db'.surfaces[id].project == db.surfaces[id].project
               && (db.surfaces[id].retiredAt.None? ==> db'.surfaces[id].retiredAt.None?)
    requires var s := db'.surfaces[id];
             && s.project in db.bindings && db.bindings[s.project].guild == s.guild
             && (s.retiredAt.None? ==> db.bindings[s.project].retiredAt.None?)
             && (s.thread.Some? || s.message.Some? || s.activity.Some?)
    requires forall t :: t in db.surfaces && t != id ==> !SameIdentity(db'.surfaces[id], db.surfaces[t]) && !SameIdentity(db.surfaces[t], db'.surfaces[id])
    ensures Hierarchy(db')
  {
    forall q ensures BindingKey(db', q) && BindingLayer(db', q) {
      assert BindingKey(db, q) && BindingLayer(db, q);
    }
    forall q, o | SameFactory(db', q, o) ensures q == o {
      assert SameFactory(db, q, o);
    }
    forall s ensures SurfaceKey(db', s) && SurfaceLayer(db', s) {
      assert SurfaceKey(db, s) && SurfaceLayer(db, s);
    }
    forall s, t | Clash(db', s, t) ensures s == t {
      assert s != id && t != id ==> Clash(db, s, t);
    }
    RunsUntouched(db, db');
  }

  lemma RebindSurfaceSound(db: Db, p: ProjectId, i: Identity, id: SurfaceId, now: int)
    requires Hierarchy(db) && BindingActive(db, p) && Candidate(db, i, id)
    requires forall a :: Candidate(db, i, a) ==> a == id
    ensures Sound(db, RebindSurface(db, p, i, id, now))
  {
    var s := db.surfaces[id];
    if s.project == p && s.guild == i.guild && s.channel == i.channel {
      var s' := WithIdentity(s, i).(retiredAt := None, updatedAt := now);
      var db' := db.(surfaces := db.surfaces[id := s']);
      forall t | t in db.surfaces && t != id ensures !SameIdentity(s', db.surfaces[t]) && !SameIdentity(db.surfaces[t], s') {
        assert !Candidate(db, i, t);
        assert !Clash(db, id, t) && !Clash(db, t, id);
      }
      assert SurfaceKey(db, id);
      OneSurface(db, db', id);
    }
  }

  lemma InsertSurfaceSound(db: Db, p: ProjectId, i: Identity, newId: SurfaceId, now: int)
    requires Hierarchy(db) && BindingActive(db, p) && newId !in db.surfaces && db.bindings[p].guild == i.guild
    requires i.thread.Some? || i.message.Some? || i.activity.Some?
    requires forall a :: !Candidate(db, i, a)
    ensures Hierarchy(db.(surfaces := db.surfaces[newId := Surface(p, i.guild, i.channel, i.thread, i.message, i.activity, now, now, None)]))
  {
    var s := Surface(p, i.guild, i.channel, i.thread, i.message, i.activity, now, now, None);
    var db' := db.(surfaces := db.surfaces[newId := s]);
    forall t | t in db.surfaces ensures !SameIdentity(s, db.surfaces[t]) && !SameIdentity(db.surfaces[t], s) {
      assert !Candidate(db, i, t);
    }
    OneSurface(db, db', newId);
  }

  lemma BindSurfaceSound(db: Db, p: ProjectId, i: Identity, newId: SurfaceId, now: int)
    requires Hierarchy(db) && newId !in db.surfaces
    ensures Sound(db, BindSurface(db, p, i, newId, now))
  {
    if BindingActive(db, p) && db.bindings[p].guild == i.guild && (i.thread.Some? || i.message.Some? || i.activity.Some?) {
      if a :| Candidate(db, i, a) {
        if forall b :: Candidate(db, i, b) ==> b == a {
          RebindSurfaceSound(db, p, i, a, now);
        }
      } else {
        InsertSurfaceSound(db, p, i, newId, now);
      }
    }
  }

  /** One run row added or made active on an active surface that has no other active run. */
  lemma OneRun(db: Db, db': Db, run: RunId)
    requires Hierarchy(db) && run in db'.runs && db' == db.(runs := db.runs[run := db'.runs[run]])
    requires var r := db'.runs[run];
             && r.surface in db.surfaces && db.surfaces[r.surface].project == r.project && db.surfaces[r.surface].retiredAt.None?
             && !HasOtherRun(db, r.surface, run)
    ensures Hierarchy(db')
  {
    forall q ensures BindingKey(db', q) && BindingLayer(db', q) {
      assert BindingKey(db, q) && BindingLayer(db, q);
    }
    forall q, o | SameFactory(db', q, o) ensures q == o {
      assert SameFactory(db, q, o);
    }
    forall s ensures SurfaceKey(db', s) && SurfaceLayer(db', s) {
      assert SurfaceKey(db, s) && SurfaceLayer(db, s);
    }
    forall s, t | Clash(db', s, t) ensures s == t {
      assert Clash(db, s, t);
    }
    forall r ensures RunKey(db', r) && RunLayer(db', r) {
      assert RunKey(db, r) && RunLayer(db, r);
    }
    forall r, q | ShareSurface(db', r, q) ensures r == q {
      assert r != run && q != run ==> ShareSurface(db, r, q);
      assert r != run ==> !ActiveOn(db, r, db'.runs[run].surface);
      assert q != run ==> !ActiveOn(db, q, db'.runs[run].surface);
    }
  }

  lemma BindRunSound(db: Db, p: ProjectId, surface: SurfaceId, run: RunId, now: int)
    requires Hierarchy(db)
    ensures Sound(db, BindRun(db, p, surface, run, now))
  {
    if surface in db.surfaces && db.surfaces[surface].retiredAt.None? && db.surfaces[surface].project == p && !HasOtherRun(db, surface, run) {
      var r := if run in db.runs then db.runs[run].(retiredAt := None, updatedAt := now) else Run(p, surface, now, now, None);
      if r.project == p && r.surface == surface {
        OneRun(db, db.(runs := db.runs[run := r]), run);
      }
    }
  }

  lemma BindActivitySound(db: Db, surface: SurfaceId, activity: string, now: int)
    requires Hierarchy(db)
    ensures Sound(db, BindActivity(db, surface, activity, now))
  {
    if surface in db.surfaces && db.surfaces[surface].activity.None?
       && forall t :: t in db.surfaces && t != surface ==> db.surfaces[t].activity != Some(activity)
    {
      var s' := db.surfaces[surface].(activity := Some(activity), updatedAt := now);
      forall t | t in db.surfaces && t != surface ensures !SameIdentity(s', db.surfaces[t]) && !SameIdentity(db.surfaces[t], s') {
        assert !Clash(db, surface, t) && !Clash(db, t, surface);
      }
      assert SurfaceKey(db, surface) && SurfaceLayer(db, surface);
      OneSurface(db, db.(surfaces := db.surfaces[surface := s']), surface);
    }
  }

  /** Retiring rows, any rows, never breaks the schema: no key and no identity changes. */
  lemma RetiringKeepsKeys(db: Db, db': Db, now: int)
    requires Constraints(db) && db'.projects == db.projects
    requires db'.bindings.Keys == db.bindings.Keys && db'.surfaces.Keys == db.surfaces.Keys && db'.runs.Keys == db.runs.Keys
    requires forall p :: p in db.bindings ==> db'.bindings[p] == db.bindings[p] || db'.bindings[p] == RetiredBinding(db.bindings[p], now)
    requires forall s :: s in db.surfaces ==> db'.surfaces[s] == db.surfaces[s] || db'.surfaces[s] == RetiredSurface(db.surfaces[s], now)
    requires forall r :: r in db.runs ==> db'.runs[r] == db.runs[r] || db'.runs[r] == RetiredRun(db.runs[r], now)
    ensures Constraints(db')
  {
    forall q ensures BindingKey(db', q) {
      assert BindingKey(db, q);
    }
    forall q, o | SameFactory(db', q, o) ensures q == o {
      assert SameFactory(db, q, o);
    }
    forall s ensures SurfaceKey(db', s) {
      assert SurfaceKey(db, s);
    }
    forall s, t | Clash(db', s, t) ensures s == t {
      assert Clash(db, s, t);
    }
    forall r ensures RunKey(db', r) {
      assert RunKey(db, r);
    }
    forall r, q | ShareSurface(db', r, q) ensures r == q {
      assert ShareSurface(db, r, q);
    }
  }

  lemma RetireRunKeeps(db: Db, run: RunId, now: int)
    requires Hierarchy(db)
    ensures Hierarchy(RetireRun(db, run, now))
  {
    var db' := RetireRun(db, run, now);
    RetiringKeepsKeys(db, db', now);
    forall r ensures RunLayer(db', r) {
      assert RunLayer(db, r);
    }
    forall s ensures SurfaceLayer(db', s) {
      assert SurfaceLayer(db, s);
    }
    forall p ensures BindingLayer(db', p) {
      assert BindingLayer(db, p);
    }
  }

  lemma RetireSurfaceKeeps(db: Db, surface: SurfaceId, now: int)
    requires Hierarchy(db)
    ensures Hierarchy(RetireSurface(db, surface, now))
  {
    var db' := RetireSurface(db, surface, now);
    RetiringKeepsKeys(db, db', now);
    forall r ensures RunLayer(db', r) {
      assert RunLayer(db, r);
    }
    forall s ensures SurfaceLayer(db', s) {
      assert SurfaceLayer(db, s);
    }
    forall p ensures BindingLayer(db', p) {
      assert BindingLayer(db, p);
    }
  }

  /** Everything below a project goes with it; `p` itself may be archived already. */
  lemma RetireProjectKeeps(db: Db, p: ProjectId, now: int)
    requires Constraints(db) && (forall r :: RunLayer(db, r)) && (forall s :: SurfaceLayer(db, s))
    requires forall q :: q != p ==> BindingLayer(db, q)
    ensures Hierarchy(RetireProject(db, p, now))
  {
    var db' := RetireProject(db, p, now);
    RetiringKeepsKeys(db, db', now);
    forall r ensures RunLayer(db', r) {
      assert RunLayer(db, r) && RunKey(db, r);
    }
    forall s ensures SurfaceLayer(db', s) {
      assert SurfaceLayer(db, s);
    }
    forall q ensures BindingLayer(db', q) {
      assert q != p ==> BindingLayer(db, q);
    }
  }

  lemma ArchiveKeeps(db: Db, p: ProjectId, now: int)
    requires Hierarchy(db)
    ensures Hierarchy(Archive(db, p, now))
  {
    if ProjectActive(db, p) {
      var db1 := db.(projects := db.projects[p := Some(now)]);
      ProjectsChanged(db, db1, p);
      RetireProjectKeeps(db1, p, now);
    }
  }

  /** Only the archive time of one project changes. */
  lemma ProjectsChanged(db: Db, db1: Db, p: ProjectId)
    requires Hierarchy(db) && p in db1.projects && db1 == db.(projects := db.projects[p := db1.projects[p]])
    ensures Constraints(db1) && (forall r :: RunLayer(db1, r)) && (forall s :: SurfaceLayer(db1, s))
    ensures forall q :: q != p || db1.projects[p].None? ==> BindingLayer(db1, q)
  {
    forall q ensures BindingKey(db1, q) && (q != p || db1.projects[p].None? ==> BindingLayer(db1, q)) {
      assert BindingKey(db, q) && BindingLayer(db, q);
    }
    forall q, o | SameFactory(db1, q, o) ensures q == o {
      assert SameFactory(db, q, o);
    }
    forall s ensures SurfaceKey(db1, s) && SurfaceLayer(db1, s) {
      assert SurfaceKey(db, s) && SurfaceLayer(db, s);
    }
    forall s, t | Clash(db1, s, t) ensures s == t {
      assert Clash(db, s, t);
    }
    RunsUntouched(db, db1);
  }

  /** Every call, on every state that satisfies the hierarchy. */
  lemma CallSound(db: Db, e: Event)
    requires Hierarchy(db) && FreshIds(db, e)
    ensures Sound(db, Call(db, e))
  {
    match e
    case ProjectCreated(p) => ProjectsChanged(db, CreateProject(db, p), p);
    case ProjectArchived(p, now) => ArchiveKeeps(db, p, now);
    case ProjectBound(p, factoryId, guild, now) => BindProjectSound(db, p, factoryId, guild, now);
    case SurfaceBound(p, identity, newId, now) => BindSurfaceSound(db, p, identity, newId, now);
    case RunBound(p, surface, run, now) => BindRunSound(db, p, surface, run, now);
    case ActivityBound(surface, activity, now) => BindActivitySound(db, surface, activity, now);
    case ProjectRetired(p, now) => RetireProjectKeeps(db, p, now);
    case SurfaceRetired(surface, now) => RetireSurfaceKeeps(db, surface, now);
    case RunRetired(run, now) => RetireRunKeeps(db, run, now);
  }

  ghost predicate AllFresh(db: Db, es: seq<Event>) {
    forall k :: 0 <= k < |es| ==> FreshIds(RunAll(db, es[..k]), es[k])
  }

  ghost predicate NeverFired(db: Db, es: seq<Event>) {
    forall k :: 0 <= k < |es| ==> Call(RunAll(db, es[..k]), es[k]) != Err(SqlConstraint)
  }

  lemma FreshBefore(db: Db, es: seq<Event>)
    requires AllFresh(db, es) && es != []
    ensures AllFresh(db, es[..|es| - 1])
  {
    var before := es[..|es| - 1];
    forall k | 0 <= k < |before| ensures FreshIds(RunAll(db, before[..k]), before[k]) {
      assert before[..k] == es[..k] && before[k] == es[k];
    }
  }

  lemma NeverFiredAfter(db: Db, es: seq<Event>)
    requires es != [] && NeverFired(db, es[..|es| - 1])
    requires Call(RunAll(db, es[..|es| - 1]), es[|es| - 1]) != Err(SqlConstraint)
    ensures NeverFired(db, es)
  {
    var before := es[..|es| - 1];
    forall k | 0 <= k < |es| ensures Call(RunAll(db, es[..k]), es[k]) != Err(SqlConstraint) {
      if k < |before| {
        assert before[..k] == es[..k] && before[k] == es[k];
      }
    }
  }

  lemma EmptyHierarchy()
    ensures Hierarchy(Db(map[], map[], map[], map[]))
  {
  }

  /** Over every run from empty tables: the layers hold and no SQL constraint has ever fired. */
  lemma {:induction false} HierarchyHolds(es: seq<Event>)
    requires AllFresh(Db(map[], map[], map[], map[]), es)
    ensures Hierarchy(RunAll(Db(map[], map[], map[], map[]), es)) && NeverFired(Db(map[], map[], map[], map[]), es)
    decreases |es|
  {
    var empty := Db(map[], map[], map[], map[]);
    if es == [] {
      EmptyHierarchy();
    } else {
      var before := es[..|es| - 1];
      FreshBefore(empty, es);
      HierarchyHolds(before);
      CallSound(RunAll(empty, before), es[|es| - 1]);
      NeverFiredAfter(empty, es);
    }
  }

  // ---------------------------------------------------------------- what a binding gives its caller

  /** A bound run is active with its whole chain, all in one project and guild. */
  lemma ActiveRunChain(db: Db, run: RunId)
    requires Hierarchy(db) && run in db.runs && db.runs[run].retiredAt.None?
    ensures var s := db.runs[run].surface;
            && s in db.surfaces && db.surfaces[s].retiredAt.None?
            && db.surfaces[s].project == db.runs[run].project
            && BindingActive(db, db.runs[run].project)
            && db.bindings[db.runs[run].project].guild == db.surfaces[s].guild
            && forall r :: r in db.runs && r != run && db.runs[r].surface == s ==> db.runs[r].retiredAt.Some?
  {
    var s := db.runs[run].surface;
    assert RunKey(db, run) && RunLayer(db, run) && SurfaceKey(db, s) && SurfaceLayer(db, s);
    assert BindingKey(db, db.runs[run].project) && BindingLayer(db, db.runs[run].project);
    forall r | r in db.runs && r != run && db.runs[r].surface == s ensures db.runs[r].retiredAt.Some? {
      assert ShareSurface(db, run, r) ==> r == run;
    }
  }

  /** After a surface is bound, exactly one surface answers to the identity, and it is active. */
  lemma SurfaceAnswers(db: Db, p: ProjectId, i: Identity, newId: SurfaceId, now: int)
    requires Hierarchy(db) && newId !in db.surfaces && BindSurface(db, p, i, newId, now).Ok?
    ensures var db' := BindSurface(db, p, i, newId, now).value;
            exists id :: Candidate(db', i, id) && db'.surfaces[id].retiredAt.None? && db'.surfaces[id].project == p
                         && (i.thread.Some? ==> db'.surfaces[id].thread == i.thread)
                         && (i.message.Some? ==> db'.surfaces[id].message == i.message)
                         && (i.activity.Some? ==> db'.surfaces[id].activity == i.activity)
  {
    var db' := BindSurface(db, p, i, newId, now).value;
    if a :| Candidate(db, i, a) {
      assert forall b :: Candidate(db, i, b) ==> b == a;
      assert RebindSurface(db, p, i, a, now) == Ok(db');
      assert Candidate(db', i, a);
    } else {
      assert Candidate(db', i, newId);
    }
  }

  /** Binding the same project or run again changes nothing. */
  lemma RebindingIsIdempotent(db: Db, p: ProjectId, factoryId: string, guild: string, surface: SurfaceId, run: RunId, now: int, later: int)
    requires Hierarchy(db)
    ensures var r := BindProject(db, p, factoryId, guild, now); r.Ok? ==> BindProject(r.value, p, factoryId, guild, later) == r
    ensures var r := BindRun(db, p, surface, run, now); r.Ok? ==> BindRun(r.value, p, surface, run, later) == r
  {
    BindProjectSound(db, p, factoryId, guild, now);
    BindRunSound(db, p, surface, run, now);
  }

  // ---------------------------------------------------------------- what each call does, exactly

  /** The foreign keys of the three tables, and that a surface has an identity. */
  predicate KeysHold(db: Db) {
    && (forall p :: p in db.bindings ==> p in db.projects)
    && (forall s :: s in db.surfaces ==>
          && db.surfaces[s].project in db.bindings && db.surfaces[s].guild == db.bindings[db.surfaces[s].project].guild
          && !(db.surfaces[s].thread.None? && db.surfaces[s].message.None? && db.surfaces[s].activity.None?))
    && (forall r :: r in db.runs ==> db.runs[r].surface in db.surfaces && db.runs[r].project == db.surfaces[db.runs[r].surface].project)
  }

  /** Two surfaces may share neither an instance nor a message, nor a thread of one channel. */
  predicate TwoSurfaces(a: Surface, b: Surface) {
    && (a.activity.Some? ==> a.activity != b.activity) && (a.message.Some? ==> a.message != b.message)
    && (a.thread.Some? ==> !(a.thread == b.thread && a.guild == b.guild && a.channel == b.channel))
  }

  /** The unique indexes. */
  predicate IndexesHold(db: Db) {
    && (forall p, q :: p in db.bindings && q in db.bindings && p != q ==> db.bindings[p].factoryId != db.bindings[q].factoryId)
    && (forall s, t :: s in db.surfaces && t in db.surfaces && s != t ==> TwoSurfaces(db.surfaces[s], db.surfaces[t]))
    && (forall r, q :: r in db.runs && q in db.runs && r != q && db.runs[r].retiredAt.None? && db.runs[q].retiredAt.None? ==>
          db.runs[r].surface != db.runs[q].surface)
  }

  lemma KeysAreConstrained(db: Db)
    requires Constraints(db)
    ensures KeysHold(db) && IndexesHold(db)
  {
    forall p | p in db.bindings ensures p in db.projects {
      assert BindingKey(db, p);
    }
    forall s | s in db.surfaces
      ensures db.surfaces[s].project in db.bindings && db.surfaces[s].guild == db.bindings[db.surfaces[s].project].guild
      ensures !(db.surfaces[s].thread.None? && db.surfaces[s].message.None? && db.surfaces[s].activity.None?)
    {
      assert SurfaceKey(db, s);
    }
    forall r | r in db.runs ensures db.runs[r].surface in db.surfaces && db.runs[r].project == db.surfaces[db.runs[r].surface].project {
      assert RunKey(db, r);
    }
    forall p, q | p in db.bindings && q in db.bindings && p != q ensures db.bindings[p].factoryId != db.bindings[q].factoryId {
      assert !SameFactory(db, p, q);
    }
    forall s, t | s in db.surfaces && t in db.surfaces && s != t ensures TwoSurfaces(db.surfaces[s], db.surfaces[t]) {
      assert !Clash(db, s, t);
    }
    forall r, q | r in db.runs && q in db.runs && r != q && db.runs[r].retiredAt.None? && db.runs[q].retiredAt.None?
      ensures db.runs[r].surface != db.runs[q].surface
    {
      assert !ShareSurface(db, r, q);
    }
  }

  lemma NothingElseConstrained(db: Db)
    requires KeysHold(db) && IndexesHold(db)
    ensures Constraints(db)
  {
    forall p ensures BindingKey(db, p) {
    }
    forall s ensures SurfaceKey(db, s) {
    }
    forall r ensures RunKey(db, r) {
    }
    forall p, q | SameFactory(db, p, q) ensures p == q {
    }
    forall s, t | Clash(db, s, t) ensures s == t {
      assert s != t ==> TwoSurfaces(db.surfaces[s], db.surfaces[t]);
    }
    forall r, q | ShareSurface(db, r, q) ensures r == q {
    }
  }

  /** The schema in full. A statement is refused exactly when it would break it. */
  lemma SchemaExactly(db: Db)
    ensures Constraints(db) <==> KeysHold(db) && IndexesHold(db)
    ensures Committed(db) == if KeysHold(db) && IndexesHold(db) then Ok(db) else Err(SqlConstraint)
  {
    if Constraints(db) {
      KeysAreConstrained(db);
    }
    if KeysHold(db) && IndexesHold(db) {
      NothingElseConstrained(db);
    }
  }

  lemma RunAllSteps(db: Db, es: seq<Event>, e: Event)
    ensures RunAll(db, []) == db && RunAll(db, es + [e]) == Step(RunAll(db, es), e)
    ensures Step(db, e) == if Call(db, e).Ok? then Call(db, e).value else db
  {
    assert (es + [e])[..|es + [e]| - 1] == es;
  }

  /** Only this row of the table may differ. */
  ghost predicate OtherBindings(db: Db, db': Db, p: ProjectId) {
    db'.projects == db.projects && db'.surfaces == db.surfaces && db'.runs == db.runs
    && forall q :: q != p ==> Lookup(db'.bindings, q) == Lookup(db.bindings, q)
  }

  ghost predicate OtherSurfaces(db: Db, db': Db, s: SurfaceId) {
    db'.projects == db.projects && db'.bindings == db.bindings && db'.runs == db.runs
    && forall t :: t != s ==> Lookup(db'.surfaces, t) == Lookup(db.surfaces, t)
  }

  ghost predicate OtherRuns(db: Db, db': Db, r: RunId) {
    db'.projects == db.projects && db'.bindings == db.bindings && db'.surfaces == db.surfaces
    && forall q :: q != r ==> Lookup(db'.runs, q) == Lookup(db.runs, q)
  }

  /** Binding a project succeeds exactly for a live project that is bound to nothing else, under a factory
      id nobody else has; it is then bound to it. */
  lemma BindProjectExactly(db: Db, p: ProjectId, factoryId: string, guild: string, now: int)
    requires Hierarchy(db)
    ensures var r := BindProject(db, p, factoryId, guild, now);
            && (r.Ok? <==>
                  && p in db.projects && db.projects[p].None? && factoryId != "" && guild != ""
                  && (p in db.bindings ==> db.bindings[p].factoryId == factoryId && db.bindings[p].guild == guild)
                  && (forall q :: q in db.bindings && q != p ==> db.bindings[q].factoryId != factoryId))
            && (r.Ok? ==>
                  && OtherBindings(db, r.value, p) && p in r.value.bindings
                  && var b := r.value.bindings[p];
                     && b.factoryId == factoryId && b.guild == guild && b.retiredAt.None?
                     && (p in db.bindings && db.bindings[p].retiredAt.None? ==> b == db.bindings[p])
                     && (p in db.bindings && db.bindings[p].retiredAt.Some? ==> b.createdAt == db.bindings[p].createdAt && b.updatedAt == now)
                     && (p !in db.bindings ==> b.createdAt == now && b.updatedAt == now))
            && (r == Err(ProjectNotFound) <==> p !in db.projects || db.projects[p].Some?)
            && (r == Err(ProjectBindingConflict) ==> p in db.bindings)
            && (r == Err(FactoryProjectTaken) <==>
                  && p in db.projects && db.projects[p].None? && guild != "" && factoryId != "" && p !in db.bindings
                  && exists q :: q in db.bindings && db.bindings[q].factoryId == factoryId)
  {
    BindProjectSound(db, p, factoryId, guild, now);
    forall q | q in db.bindings && p in db.bindings && db.bindings[q].factoryId == db.bindings[p].factoryId ensures q == p {
      assert SameFactory(db, q, p);
    }
  }

  /** Binding a run succeeds exactly on an active surface of a live, bound project, for a run not bound
      elsewhere and a surface without another active run; the run is then active there. */
  lemma BindRunExactly(db: Db, p: ProjectId, surface: SurfaceId, run: RunId, now: int)
    requires Hierarchy(db)
    ensures var r := BindRun(db, p, surface, run, now);
            && (r.Ok? <==>
                  && p in db.projects && db.projects[p].None? && p in db.bindings && db.bindings[p].retiredAt.None?
                  && run != "" && surface != ""
                  && surface in db.surfaces && db.surfaces[surface].retiredAt.None? && db.surfaces[surface].project == p
                  && (forall q :: q in db.runs && q != run && db.runs[q].surface == surface ==> db.runs[q].retiredAt.Some?)
                  && (run in db.runs ==> db.runs[run].project == p && db.runs[run].surface == surface))
            && (r.Ok? ==>
                  && OtherRuns(db, r.value, run) && run in r.value.runs
                  && var b := r.value.runs[run];
                     && b.project == p && b.surface == surface && b.retiredAt.None?
                     && (run in db.runs && db.runs[run].retiredAt.None? ==> b == db.runs[run])
                     && (run in db.runs && db.runs[run].retiredAt.Some? ==> b.createdAt == db.runs[run].createdAt && b.updatedAt == now)
                     && (run !in db.runs ==> b.createdAt == now && b.updatedAt == now))
            && (r == Err(ProjectNotFound) <==> p !in db.projects || db.projects[p].Some?)
            && (r == Err(ProjectNotBound) <==>
                  p in db.projects && db.projects[p].None? && (p !in db.bindings || db.bindings[p].retiredAt.Some?))
            && (r == Err(SurfaceNotFound) ==> surface !in db.surfaces || db.surfaces[surface].retiredAt.Some?)
            && (r == Err(RunProjectMismatch) ==> surface in db.surfaces && db.surfaces[surface].project != p)
            && (r == Err(SurfaceHasRun) ==> exists q :: q != run && ActiveOn(db, q, surface))
            && (r == Err(RunBindingConflict) ==> run in db.runs && (db.runs[run].project != p || db.runs[run].surface != surface))
  {
    BindRunSound(db, p, surface, run, now);
    assert HasOtherRun(db, surface, run) <==>
           exists q :: q in db.runs && q != run && db.runs[q].surface == surface && db.runs[q].retiredAt.None? by {
      forall q ensures ActiveOn(db, q, surface) <==> q in db.runs && db.runs[q].surface == surface && db.runs[q].retiredAt.None? {
      }
    }
  }

  /** The surfaces that share an identity with the call, in the same channel where it is a thread. */
  predicate Answers(s: Surface, i: Identity) {
    || (i.activity.Some? && s.activity == i.activity) || (i.message.Some? && s.message == i.message)
    || (i.thread.Some? && s.thread == i.thread && s.channel == i.channel && s.guild == i.guild)
  }

  /** What a new surface must not contradict: every identity given is the row's own, or the row has none. */
  predicate Agree(s: Surface, p: ProjectId, i: Identity) {
    && s.project == p && s.guild == i.guild && s.channel == i.channel
    && (s.thread.Some? && i.thread.Some? ==> s.thread == i.thread)
    && (s.message.Some? && i.message.Some? ==> s.message == i.message)
    && (s.activity.Some? && i.activity.Some? ==> s.activity == i.activity)
  }

  /** An active row that has every identity given: binding it again leaves it as it is. */
  predicate Complete(s: Surface, i: Identity) {
    s.retiredAt.None? && (i.thread.Some? ==> s.thread.Some?) && (i.message.Some? ==> s.message.Some?) && (i.activity.Some? ==> s.activity.Some?)
  }

  /** Binding a surface succeeds exactly when the project is bound in that guild, some identity is given,
      and at most one row answers to it and contradicts nothing; that row, or a new one, is then active
      with every identity it had and every one that was given. */
  lemma BindSurfaceExactly(db: Db, p: ProjectId, i: Identity, newId: SurfaceId, now: int) returns (id: SurfaceId)
    requires Hierarchy(db) && newId !in db.surfaces
    ensures var r := BindSurface(db, p, i, newId, now);
            && (r.Ok? <==>
                  && p in db.projects && db.projects[p].None? && p in db.bindings && db.bindings[p].retiredAt.None?
                  && i.guild != "" && i.channel != "" && (i.thread.Some? || i.message.Some? || i.activity.Some?)
                  && db.bindings[p].guild == i.guild
                  && (forall a, b :: a in db.surfaces && b in db.surfaces && Answers(db.surfaces[a], i) && Answers(db.surfaces[b], i) ==> a == b)
                  && (forall a :: a in db.surfaces && Answers(db.surfaces[a], i) ==> Agree(db.surfaces[a], p, i)))
            && (r.Ok? ==>
                  && OtherSurfaces(db, r.value, id) && id in r.value.surfaces
                  && (if exists a :: a in db.surfaces && Answers(db.surfaces[a], i) then id in db.surfaces && Answers(db.surfaces[id], i) else id == newId)
                  && var s := r.value.surfaces[id];
                     && s.project == p && s.guild == i.guild && s.channel == i.channel && s.retiredAt.None?
                     && (i.thread.Some? ==> s.thread == i.thread) && (i.message.Some? ==> s.message == i.message)
                     && (i.activity.Some? ==> s.activity == i.activity)
                     && (i.thread.None? ==> s.thread == if id in db.surfaces then db.surfaces[id].thread else None)
                     && (i.message.None? ==> s.message == if id in db.surfaces then db.surfaces[id].message else None)
                     && (i.activity.None? ==> s.activity == if id in db.surfaces then db.surfaces[id].activity else None)
                     && s.createdAt == (if id in db.surfaces then db.surfaces[id].createdAt else now)
                     && s.updatedAt == if id in db.surfaces && Complete(db.surfaces[id], i) then db.surfaces[id].updatedAt else now)
            && (r == Err(ProjectNotFound) <==> p !in db.projects || db.projects[p].Some?)
            && (r == Err(ProjectNotBound) <==>
                  p in db.projects && db.projects[p].None? && (p !in db.bindings || db.bindings[p].retiredAt.Some?))
            && (r == Err(SurfaceIdentityConflict) ==>
                  exists a, b :: a in db.surfaces && b in db.surfaces && a != b && Answers(db.surfaces[a], i) && Answers(db.surfaces[b], i))
            && (r == Err(SurfaceGuildMismatch) ==> p in db.bindings && db.bindings[p].guild != i.guild)
  {
    BindSurfaceSound(db, p, i, newId, now);
    forall a ensures Candidate(db, i, a) <==> a in db.surfaces && Answers(db.surfaces[a], i) {
    }
    id := newId;
    if a :| Candidate(db, i, a) {
      id := a;
    }
  }

  /** Attaching an instance succeeds exactly for an active surface of a live project without another
      instance, when no other surface has this one. */
  lemma BindActivityExactly(db: Db, surface: SurfaceId, activity: string, now: int)
    requires Hierarchy(db)
    ensures var r := BindActivity(db, surface, activity, now);
            && (r.Ok? <==>
                  && surface != "" && activity != "" && surface in db.surfaces && db.surfaces[surface].retiredAt.None?
                  && db.surfaces[surface].activity in {None, Some(activity)}
                  && (forall s :: s in db.surfaces && s != surface ==> db.surfaces[s].activity != Some(activity)))
            && (r.Ok? ==>
                  && OtherSurfaces(db, r.value, surface) && surface in r.value.surfaces
                  && (db.surfaces[surface].activity.Some? ==> r.value == db)
                  && (db.surfaces[surface].activity.None? ==>
                        r.value.surfaces[surface] == db.surfaces[surface].(activity := Some(activity), updatedAt := now)))
            && (r == Err(SurfaceNotFound) <==>
                  surface != "" && activity != "" && (surface !in db.surfaces || db.surfaces[surface].retiredAt.Some?))
            && (r == Err(ActivityConflict) ==> surface in db.surfaces && db.surfaces[surface].activity.Some?)
            && (r == Err(ActivityTaken) ==> exists s :: s in db.surfaces && s != surface && db.surfaces[s].activity == Some(activity))
  {
    BindActivitySound(db, surface, activity, now);
    assert SurfaceLayer(db, surface) && SurfaceKey(db, surface);
    if surface in db.surfaces {
      assert BindingLayer(db, db.surfaces[surface].project);
    }
  }

  /** Retiring reaches exactly the active rows at and below the given one, and dates them. */
  lemma RetireRunExactly(db: Db, run: RunId, now: int)
    ensures var d := RetireRun(db, run, now);
            OtherRuns(db, d, run) && Lookup(d.runs, run) == if run in db.runs then Some(Dated(db.runs[run], now)) else None
  {
  }

  lemma RetireSurfaceExactly(db: Db, surface: SurfaceId, now: int)
    ensures var d := RetireSurface(db, surface, now);
            && d.projects == db.projects && d.bindings == db.bindings && d.surfaces.Keys == db.surfaces.Keys && d.runs.Keys == db.runs.Keys
            && (forall s :: s in db.surfaces ==> d.surfaces[s] == if s == surface && db.surfaces[s].retiredAt.None?
                  then db.surfaces[s].(retiredAt := Some(now), updatedAt := now) else db.surfaces[s])
            && (forall r :: r in db.runs ==> d.runs[r] == if db.runs[r].surface == surface then Dated(db.runs[r], now) else db.runs[r])
  {
  }

  lemma RetireProjectExactly(db: Db, p: ProjectId, now: int)
    ensures var d := RetireProject(db, p, now);
            && d.projects == db.projects && d.bindings.Keys == db.bindings.Keys
            && d.surfaces.Keys == db.surfaces.Keys && d.runs.Keys == db.runs.Keys
            && (forall q :: q in db.bindings ==> d.bindings[q] == if q == p && db.bindings[q].retiredAt.None?
                  then db.bindings[q].(retiredAt := Some(now), updatedAt := now) else db.bindings[q])
            && (forall s :: s in db.surfaces ==> d.surfaces[s] == if db.surfaces[s].project == p && db.surfaces[s].retiredAt.None?
                  then db.surfaces[s].(retiredAt := Some(now), updatedAt := now) else db.surfaces[s])
            && (forall r :: r in db.runs ==> d.runs[r] == if db.runs[r].project == p then Dated(db.runs[r], now) else db.runs[r])
  {
  }

  function Dated(r: Run, now: int): Run {
    if r.retiredAt.Some? then r else Run(r.project, r.surface, r.createdAt, now, Some(now))
  }

  /** Archiving dates a live project once and retires everything below it; reviving brings back the
      project alone. */
  lemma ArchiveExactly(db: Db, p: ProjectId, now: int)
    requires Hierarchy(db)
    ensures var d := Archive(db, p, now);
            if p in db.projects && db.projects[p].None? then
              && d == RetireProject(db, p, now).(projects := db.projects[p := Some(now)])
              && (p in d.bindings ==> d.bindings[p].retiredAt.Some?)
              && (forall s :: s in d.surfaces && d.surfaces[s].project == p ==> d.surfaces[s].retiredAt.Some?)
              && (forall r :: r in d.runs && d.runs[r].project == p ==> d.runs[r].retiredAt.Some?)
            else d == db
    ensures CreateProject(db, p).projects == db.projects[p := None] && CreateProject(db, p) == db.(projects := db.projects[p := None])
  {
  }

  // ---------------------------------------------------------------- the repositories

  class BindingRepository {
    var projects: map<ProjectId, Option<int>>
    var bindings: map<ProjectId, ProjectBinding>
    var surfaces: map<SurfaceId, Surface>
    var runs: map<RunId, Run>

    ghost function View(): Db
      reads this
    {
      Db(projects, bindings, surfaces, runs)
    }

    constructor ()
      ensures View() == Db(map[], map[], map[], map[])
    {
      projects, bindings, surfaces, runs := map[], map[], map[], map[];
    }

    ghost predicate Outcome(before: Db, spec: Result<Db, BindingError>, r: Result<(), BindingError>)
      reads this
    {
      match spec
      case Ok(db) => r == Ok(()) && View() == db
      case Err(e) => r == Err(e) && View() == before
    }

    method ProjectBind(p: ProjectId, factoryId: string, guild: string, now: int) returns (r: Result<(), BindingError>)
      requires Hierarchy(View())
      modifies this`bindings
      ensures Outcome(old(View()), BindProject(old(View()), p, factoryId, guild, now), r)
    {
      BindProjectSound(View(), p, factoryId, guild, now);
      if p !in projects || projects[p].Some? {
        return Err(ProjectNotFound);
      }
      if factoryId == "" || guild == "" {
        return Err(Required);
      }
      if p in bindings {
        var existing := bindings[p];
        if existing.factoryId != factoryId || existing.guild != guild {
          return Err(ProjectBindingConflict);
        }
        if existing.retiredAt.Some? {
          bindings := bindings[p := existing.(retiredAt := None, updatedAt := now)];
        }
        return Ok(());
      }
      if exists q :: q in bindings && bindings[q].factoryId == factoryId && q != p {
        return Err(FactoryProjectTaken);
      }
      bindings := bindings[p := ProjectBinding(factoryId, guild, now, now, None)];
      return Ok(());
    }

    method FindByActivity(activity: Option<string>) returns (found: set<SurfaceId>)
      ensures found == set s | s in surfaces && activity.Some? && surfaces[s].activity == activity
    {
      found := set s | s in surfaces && activity.Some? && surfaces[s].activity == activity;
    }

    method FindByMessage(message: Option<string>) returns (found: set<SurfaceId>)
      ensures found == set s | s in surfaces && message.Some? && surfaces[s].message == message
    {
      found := set s | s in surfaces && message.Some? && surfaces[s].message == message;
    }

    method FindByThread(i: Identity) returns (found: set<SurfaceId>)
      ensures found == set s | s in surfaces && i.thread.Some? && surfaces[s].guild == i.guild
                               && surfaces[s].channel == i.channel && surfaces[s].thread == i.thread
    {
      found := set s | s in surfaces && i.thread.Some? && surfaces[s].guild == i.guild
                       && surfaces[s].channel == i.channel && surfaces[s].thread == i.thread;
    }

    method Rebind(p: ProjectId, i: Identity, id: SurfaceId, now: int) returns (r: Result<(), BindingError>)
      requires Hierarchy(View()) && BindingActive(View(), p) && Candidate(View(), i, id)
      requires forall a :: Candidate(View(), i, a) ==> a == id
      modifies this`surfaces
      ensures Outcome(old(View()), RebindSurface(old(View()), p, i, id, now), r)
    {
      RebindSurfaceSound(View(), p, i, id, now);
      var existing := surfaces[id];
      if existing.project != p || existing.guild != i.guild || existing.channel != i.channel {
        return Err(SurfaceBindingConflict);
      }
      if !Reconciles(existing.thread, i.thread) || !Reconciles(existing.message, i.message) || !Reconciles(existing.activity, i.activity) {
        return Err(SurfaceBindingConflict);
      }
      var next := WithIdentity(existing, i);
      if existing.retiredAt.Some? || next != existing {
        surfaces := surfaces[id := next.(retiredAt := None, updatedAt := now)];
      }
      return Ok(());
    }

    method FindCandidates(i: Identity) returns (found: set<SurfaceId>)
      ensures forall a :: a in found <==> Candidate(View(), i, a)
    {
      var byActivity := FindByActivity(i.activity);
      var byMessage := FindByMessage(i.message);
      var byThread := FindByThread(i);
      found := byActivity + byMessage + byThread;
    }

    /** The checks on the identity, once project and guild are known to be right. */
    method BindIdentity(p: ProjectId, i: Identity, newId: SurfaceId, now: int) returns (r: Result<(), BindingError>)
      requires Hierarchy(View()) && newId !in surfaces && BindingActive(View(), p) && bindings[p].guild == i.guild
      requires i.guild != "" && i.channel != "" && (i.thread.Some? || i.message.Some? || i.activity.Some?)
      modifies this`surfaces
      ensures Outcome(old(View()), BindSurface(old(View()), p, i, newId, now), r)
    {
      var candidates := FindCandidates(i);
      if candidates == {} {
        InsertSurfaceSound(View(), p, i, newId, now);
        surfaces := surfaces[newId := Surface(p, i.guild, i.channel, i.thread, i.message, i.activity, now, now, None)];
        return Ok(());
      }
      var id :| id in candidates;
      var others := candidates - {id};
      assert Candidate(View(), i, id);
      if others != {} {
        var other :| other in others;
        assert Candidate(View(), i, other);
        return Err(SurfaceIdentityConflict);
      }
      forall a | Candidate(View(), i, a) ensures a == id {
        assert a !in others;
      }
      OneCandidate(View(), p, i, newId, now, id);
      r := Rebind(p, i, id, now);
    }

    lemma OneCandidate(db: Db, p: ProjectId, i: Identity, newId: SurfaceId, now: int, id: SurfaceId)
      requires BindingActive(db, p) && db.bindings[p].guild == i.guild && i.guild != "" && i.channel != ""
      requires Candidate(db, i, id) && forall a :: Candidate(db, i, a) ==> a == id
      requires i.thread.Some? || i.message.Some? || i.activity.Some?
      ensures BindSurface(db, p, i, newId, now) == RebindSurface(db, p, i, id, now)
    {
    }

    method SurfaceBind(p: ProjectId, i: Identity, newId: SurfaceId, now: int) returns (r: Result<(), BindingError>)
      requires Hierarchy(View()) && newId !in surfaces
      modifies this`surfaces
      ensures Outcome(old(View()), BindSurface(old(View()), p, i, newId, now), r)
    {
      if p !in projects || projects[p].Some? {
        return Err(ProjectNotFound);
      }
      if p !in bindings || bindings[p].retiredAt.Some? {
        return Err(ProjectNotBound);
      }
      if i.guild == "" || i.channel == "" || (i.thread.None? && i.message.None? && i.activity.None?) {
        return Err(Required);
      }
      if bindings[p].guild != i.guild {
        return Err(SurfaceGuildMismatch);
      }
      r := BindIdentity(p, i, newId, now);
    }

    method RunBind(p: ProjectId, surface: SurfaceId, run: RunId, now: int) returns (r: Result<(), BindingError>)
      requires Hierarchy(View())
      modifies this`runs
      ensures Outcome(old(View()), BindRun(old(View()), p, surface, run, now), r)
    {
      BindRunSound(View(), p, surface, run, now);
      if p !in projects || projects[p].Some? {
        return Err(ProjectNotFound);
      }
      if p !in bindings || bindings[p].retiredAt.Some? {
        return Err(ProjectNotBound);
      }
      if run == "" || surface == "" {
        return Err(Required);
      }
      if surface !in surfaces || surfaces[surface].retiredAt.Some? {
        return Err(SurfaceNotFound);
      }
      if surfaces[surface].project != p {
        return Err(RunProjectMismatch);
      }
      if exists other :: other in runs && runs[other].surface == surface && runs[other].retiredAt.None? && other != run {
        return Err(SurfaceHasRun);
      }
      if run in runs {
        var existing := runs[run];
        if existing.project != p || existing.surface != surface {
          return Err(RunBindingConflict);
        }
        if existing.retiredAt.Some? {
          runs := runs[run := existing.(retiredAt := None, updatedAt := now)];
        }
        return Ok(());
      }
      runs := runs[run := Run(p, surface, now, now, None)];
      return Ok(());
    }

    method ActivityBind(surface: SurfaceId, activity: string, now: int) returns (r: Result<(), BindingError>)
      requires Hierarchy(View())
      modifies this`surfaces
      ensures Outcome(old(View()), BindActivity(old(View()), surface, activity, now), r)
    {
      BindActivitySound(View(), surface, activity, now);
      if surface == "" || activity == "" {
        return Err(Required);
      }
      if surface !in surfaces || surfaces[surface].retiredAt.Some?
         || surfaces[surface].project !in projects || projects[surfaces[surface].project].Some? {
        return Err(SurfaceNotFound);
      }
      var row := surfaces[surface];
      if row.activity.Some? && row.activity.value != activity {
        return Err(ActivityConflict);
      }
      if exists s :: s in surfaces && surfaces[s].activity == Some(activity) && s != surface {
        return Err(ActivityTaken);
      }
      if row.activity.None? {
        surfaces := surfaces[surface := row.(activity := Some(activity), updatedAt := now)];
      }
      return Ok(());
    }

    method ProjectRetire(p: ProjectId, now: int) returns (retired: bool)
      modifies this`bindings, this`surfaces, this`runs
      ensures View() == RetireProject(old(View()), p, now)
      ensures retired <==> p in old(bindings) && old(bindings)[p].retiredAt.None?
    {
      retired := p in bindings && bindings[p].retiredAt.None?;
      if retired {
        bindings := bindings[p := bindings[p].(retiredAt := Some(now), updatedAt := now)];
      }
      surfaces := map s | s in surfaces :: if surfaces[s].project == p then RetiredSurface(surfaces[s], now) else surfaces[s];
      runs := map r | r in runs :: if runs[r].project == p then RetiredRun(runs[r], now) else runs[r];
    }

    method SurfaceRetire(surface: SurfaceId, now: int) returns (retired: bool)
      modifies this`surfaces, this`runs
      ensures View() == RetireSurface(old(View()), surface, now)
      ensures retired <==> surface in old(surfaces) && old(surfaces)[surface].retiredAt.None?
    {
      retired := surface in surfaces && surfaces[surface].retiredAt.None?;
      if retired {
        surfaces := surfaces[surface := surfaces[surface].(retiredAt := Some(now), updatedAt := now)];
      }
      runs := map r | r in runs :: if runs[r].surface == surface then RetiredRun(runs[r], now) else runs[r];
    }

    method RunRetire(run: RunId, now: int) returns (retired: bool)
      modifies this`runs
      ensures View() == RetireRun(old(View()), run, now)
      ensures retired <==> run in old(runs) && old(runs)[run].retiredAt.None?
    {
      retired := run in runs && runs[run].retiredAt.None?;
      if retired {
        runs := runs[run := runs[run].(retiredAt := Some(now), updatedAt := now)];
      }
    }

    /** Archiving a project fires the trigger that retires everything bound to it. */
    method ProjectArchive(p: ProjectId, now: int)
      modifies this
      ensures View() == Archive(old(View()), p, now)
    {
      if p !in projects || projects[p].Some? {
        return;
      }
      projects := projects[p := Some(now)];
      var _ := ProjectRetire(p, now);
    }
  }
}
