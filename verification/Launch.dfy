/**
 One-time Activity launches and the proof-key attempts below them, used by any number of concurrent
 `startOAuth` and `bootstrap` calls. Awaits that touch no shared row are folded into the next segment's
 outcome. The digest is a parameter: nothing is assumed about it.
 */
module Launch {
  import opened Common
  import Bindings

  type StateId = string
  type CallId = nat

  datatype Kind = ProjectContext | RunContext

  /** What a launch was trusted for; `project` is the local project its name resolved to. */
  datatype Context = Context(
    application: string, owner: string, guild: string, channel: string, thread: Option<string>, principal: string,
    project: Bindings.ProjectId, factoryProject: string,
    surface: Option<Bindings.SurfaceId>, run: Option<Bindings.RunId>, kind: Kind)

  datatype LaunchRow = LaunchRow(
    interaction: string, context: Context, createdAt: int, expiresAt: int, consumedAt: Option<int>, invalidatedAt: Option<int>)

  datatype Attempt = Attempt(instance: string, challenge: string, createdAt: int, expiresAt: int, consumedAt: Option<int>)

  datatype Tables = Tables(db: Bindings.Db, launches: map<StateId, LaunchRow>, attempts: map<StateId, Attempt>)

  datatype LaunchError =
    | BadTimes | BadContext | BindingMismatch | InteractionConflict | StateConflict
    | BadChallenge | LaunchUnavailable | ExpiryExceedsLaunch | AttemptConflict

  /** SHA-256 in base64url, as PKCE's S256 method uses it (section 4.6 of RFC 7636). */
  type Digest = string -> string

  predicate Unreserved(c: char) { 'A' <= c <= 'Z' || 'a' <= c <= 'z' || '0' <= c <= '9' || c == '_' || c == '-' }

  predicate ChallengeOk(s: string) { |s| == 43 && forall i :: 0 <= i < |s| ==> Unreserved(s[i]) }

  predicate VerifierOk(s: string) {
    43 <= |s| <= 128 && forall i :: 0 <= i < |s| ==> Unreserved(s[i]) || s[i] == '.' || s[i] == '~'
  }

  // ---------------------------------------------------------------- launches

  predicate Open(l: LaunchRow) { l.consumedAt.None? && l.invalidatedAt.None? }

  /** The binding rows a new launch is checked against. */
  predicate Trusted(db: Bindings.Db, c: Context) {
    && Bindings.BindingActive(db, c.project)
    && db.bindings[c.project].factoryId == c.factoryProject
    && db.bindings[c.project].guild == c.guild && db.bindings[c.project].guild == c.owner
    && (c.kind == RunContext ==>
          && c.surface.Some? && c.run.Some?
          && c.surface.value in db.surfaces && TrustedSurface(db.surfaces[c.surface.value], c)
          && c.run.value in db.runs && TrustedRun(db.runs[c.run.value], c))
  }

  predicate TrustedSurface(s: Bindings.Surface, c: Context) {
    && s.retiredAt.None? && s.project == c.project && s.guild == c.guild && s.channel == c.channel
    && (c.thread.Some? ==> s.thread == c.thread)
  }

  predicate TrustedRun(r: Bindings.Run, c: Context) {
    r.retiredAt.None? && r.project == c.project && Some(r.surface) == c.surface
  }

  predicate ContextShape(c: Context) {
    match c.kind
    case ProjectContext => c.surface.None? && c.run.None?
    case RunContext => c.surface.Some? && c.run.Some?
  }

  ghost function CreateLaunch(t: Tables, id: StateId, interaction: string, c: Context, createdAt: int, expiresAt: int)
    : Result<Tables, LaunchError>
  {
    if createdAt < 0 || expiresAt <= createdAt then Err(BadTimes)
    else if !ContextShape(c) then Err(BadContext)
    else if !Trusted(t.db, c) then Err(BindingMismatch)
    else if exists k :: k in t.launches && t.launches[k].interaction == interaction then
      if exists k :: k in t.launches && t.launches[k].interaction == interaction && t.launches[k].context == c
      then Ok(t) else Err(InteractionConflict)
    else if id in t.launches then Err(StateConflict)
    else Ok(t.(launches := t.launches[id := LaunchRow(interaction, c, createdAt, expiresAt, None, None)]))
  }

  /** The conditional update: it matches only an open, unexpired launch in exactly the expected context. */
  function ConsumeLaunch(t: Tables, id: StateId, now: int, expected: Context): Option<Tables> {
    if id in t.launches && Open(t.launches[id]) && t.launches[id].expiresAt > now
       && t.launches[id].context == expected && Bindings.ProjectActive(t.db, expected.project)
    then Some(t.(launches := t.launches[id := t.launches[id].(consumedAt := Some(now))]))
    else None
  }

  function InvalidateLaunch(t: Tables, id: StateId, at: int): Tables {
    if id in t.launches && Open(t.launches[id])
    then t.(launches := t.launches[id := t.launches[id].(invalidatedAt := Some(at))])
    else t
  }

  predicate Kept(l: LaunchRow, now: int) { Open(l) && l.expiresAt > now }

  /** Deleting launches takes their attempts with them. */
  function CleanupLaunches(t: Tables, now: int): Tables {
    t.(launches := map k | k in t.launches && Kept(t.launches[k], now) :: t.launches[k],
       attempts := map k | k in t.attempts && k in t.launches && Kept(t.launches[k], now) :: t.attempts[k])
  }

  // ---------------------------------------------------------------- attempts

  function Begin(t: Tables, id: StateId, instance: string, challenge: string, createdAt: int, expiresAt: int)
    : Result<Tables, LaunchError>
  {
    if !ChallengeOk(challenge) then Err(BadChallenge)
    else if createdAt < 0 || expiresAt <= createdAt then Err(BadTimes)
    else if id !in t.launches || !Open(t.launches[id]) || t.launches[id].expiresAt <= createdAt then Err(LaunchUnavailable)
    else if expiresAt > t.launches[id].expiresAt then Err(ExpiryExceedsLaunch)
    else if id in t.attempts then
      var a := t.attempts[id];
      if a.instance == instance && a.challenge == challenge && a.consumedAt.None? && a.expiresAt > createdAt
      then Ok(t) else Err(AttemptConflict)
    else Ok(t.(attempts := t.attempts[id := Attempt(instance, challenge, createdAt, expiresAt, None)]))
  }

  /** `currentLaunch`: present, open and not expired. */
  predicate Current(t: Tables, id: StateId, now: int) { id in t.launches && Open(t.launches[id]) && t.launches[id].expiresAt > now }

  predicate Pending(sha: Digest, t: Tables, id: StateId, instance: string, verifier: string, now: int) {
    && id in t.attempts && t.attempts[id].instance == instance && t.attempts[id].consumedAt.None?
    && t.attempts[id].expiresAt > now && t.attempts[id].challenge == sha(verifier)
  }

  predicate Verifies(sha: Digest, t: Tables, id: StateId, instance: string, verifier: string, now: int) {
    && VerifierOk(verifier) && Pending(sha, t, id, instance, verifier, now) && Current(t, id, now)
  }

  function VerifyAndConsume(sha: Digest, t: Tables, id: StateId, instance: string, verifier: string, now: int): Option<Tables> {
    if Verifies(sha, t, id, instance, verifier, now)
    then Some(t.(attempts := t.attempts[id := t.attempts[id].(consumedAt := Some(now))]))
    else None
  }

  function CleanupAttempts(t: Tables, now: int): Tables {
    t.(attempts := map k | k in t.attempts && t.attempts[k].expiresAt > now && t.attempts[k].consumedAt.None? :: t.attempts[k])
  }

  // ---------------------------------------------------------------- concurrent calls

  /** A call between its segments: what it captured and has yet to use. */
  datatype Call =
    | FindingLaunch(instance: string, challenge: string, at: int)
    | CheckingMember(id: StateId, instance: string, challenge: string, at: int, expiresAt: int)
    | Bootstrapping(id: StateId, instance: string, verifier: string, at: int, context: Context)

  /** `issued` remembers every state id ever used, `sessions` every session requested. */
  datatype State = State(t: Tables, calls: map<CallId, Call>, issued: set<StateId>, sessions: seq<StateId>)

  datatype Event =
    | BindingChange(change: Bindings.Event)
    | LaunchCreated(id: StateId, interaction: string, context: Context, createdAt: int, expiresAt: int)
    | Invalidated(id: StateId, at: int)
    | LaunchesCleaned(now: int)
    | AttemptsCleaned(now: int)
    | StartOAuth(c: CallId, instance: string, challenge: string, at: int)
    | LaunchLookedUp(c: CallId, ok: bool, interaction: string, ttl: nat)
    | MemberChecked(c: CallId, ok: bool)
    | Bootstrap(c: CallId, id: StateId, instance: string, verifier: string, at: int)
    | Exchanged(c: CallId, ok: bool)

  function Ended(s: State, c: CallId): State { s.(calls := s.calls - {c}) }

  /** The last segment of `bootstrap`: consume the attempt, then the launch, then request the session. */
  function Finished(sha: Digest, s: State, c: CallId): State
    requires c in s.calls && s.calls[c].Bootstrapping?
  {
    var call := s.calls[c];
    match VerifyAndConsume(sha, s.t, call.id, call.instance, call.verifier, call.at)
    case None => Ended(s, c)
    case Some(t) =>
      match ConsumeLaunch(t, call.id, call.at, call.context)
      case None => Ended(s.(t := t), c)
      case Some(t') => Ended(s.(t := t', sessions := s.sessions + [call.id]), c)
  }

  ghost function LaunchOf(t: Tables, interaction: string): Option<StateId> {
    if exists k :: k in t.launches && t.launches[k].interaction == interaction
    then var k :| k in t.launches && t.launches[k].interaction == interaction; Some(k)
    else None
  }

  ghost function LookedUp(s: State, c: CallId, interaction: string, ttl: nat): State
    requires c in s.calls && s.calls[c].FindingLaunch?
  {
    var call := s.calls[c];
    match LaunchOf(s.t, interaction)
    case None => Ended(s, c)
    case Some(id) =>
      if !Current(s.t, id, call.at) then Ended(s, c)
      else
        var least := if s.t.launches[id].expiresAt < call.at + ttl then s.t.launches[id].expiresAt else call.at + ttl;
        s.(calls := s.calls[c := CheckingMember(id, call.instance, call.challenge, call.at, least)])
  }

  ghost function Step(sha: Digest, s: State, e: Event): State {
    match e
    case BindingChange(change) => s.(t := s.t.(db := Bindings.Step(s.t.db, change)))
    case LaunchCreated(id, interaction, context, createdAt, expiresAt) =>
      if id in s.issued then s
      else
        (match CreateLaunch(s.t, id, interaction, context, createdAt, expiresAt)
         case Err(_) => s
         case Ok(t) => s.(t := t, issued := s.issued + {id}))
    case Invalidated(id, at) => s.(t := InvalidateLaunch(s.t, id, at))
    case LaunchesCleaned(now) => s.(t := CleanupLaunches(s.t, now))
    case AttemptsCleaned(now) => s.(t := CleanupAttempts(s.t, now))
    case StartOAuth(c, instance, challenge, at) =>
      if c in s.calls || !ChallengeOk(challenge) then s else s.(calls := s.calls[c := FindingLaunch(instance, challenge, at)])
    case LaunchLookedUp(c, ok, interaction, ttl) =>
      if c !in s.calls || !s.calls[c].FindingLaunch? then s
      else if !ok then Ended(s, c)
      else LookedUp(s, c, interaction, ttl)
    case MemberChecked(c, ok) =>
      if c !in s.calls || !s.calls[c].CheckingMember? then s
      else
        var call := s.calls[c];
        (match Begin(s.t, call.id, call.instance, call.challenge, call.at, call.expiresAt)
         case Ok(t) => if ok then Ended(s.(t := t), c) else Ended(s, c)
         case Err(_) => Ended(s, c))
    case Bootstrap(c, id, instance, verifier, at) =>
      if c in s.calls || !VerifierOk(verifier) || !Current(s.t, id, at) || !Pending(sha, s.t, id, instance, verifier, at) then s
      else s.(calls := s.calls[c := Bootstrapping(id, instance, verifier, at, s.t.launches[id].context)])
    case Exchanged(c, ok) =>
      if c !in s.calls || !s.calls[c].Bootstrapping? then s
      else if ok then Finished(sha, s, c) else Ended(s, c)
  }

  ghost function Run(sha: Digest, s: State, es: seq<Event>): State
    decreases |es|
  {
    if es == [] then s else Step(sha, Run(sha, s, es[..|es| - 1]), es[|es| - 1])
  }

  function Initial(): State { State(Tables(Bindings.Db(map[], map[], map[], map[]), map[], map[]), map[], {}, []) }

  // ---------------------------------------------------------------- the invariant

  predicate LaunchOk(t: Tables, k: StateId) {
    k in t.launches ==>
      && t.launches[k].createdAt < t.launches[k].expiresAt && ContextShape(t.launches[k].context)
      && !(t.launches[k].consumedAt.Some? && t.launches[k].invalidatedAt.Some?)
  }

  predicate SameInteraction(t: Tables, j: StateId, k: StateId) {
    j in t.launches && k in t.launches && t.launches[j].interaction == t.launches[k].interaction
  }

  /** An attempt never outlives its launch. */
  predicate AttemptOk(t: Tables, k: StateId) {
    k in t.attempts ==>
      && k in t.launches && t.attempts[k].expiresAt <= t.launches[k].expiresAt
      && t.attempts[k].createdAt < t.attempts[k].expiresAt
  }

  /** A call that is bootstrapping still expects the context of its launch, if the launch is there. */
  predicate CallOk(s: State, c: CallId) {
    c in s.calls && s.calls[c].Bootstrapping? ==>
      && s.calls[c].id in s.issued
      && (s.calls[c].id in s.t.launches ==> s.t.launches[s.calls[c].id].context == s.calls[c].context)
  }

  /** A launch whose session was requested is consumed, until it is deleted. */
  predicate SessionOk(s: State, k: StateId) {
    k in s.sessions ==> k in s.issued && (k in s.t.launches ==> s.t.launches[k].consumedAt.Some?)
  }

  predicate Distinct(log: seq<StateId>) { forall i, j :: 0 <= i < j < |log| ==> log[i] != log[j] }

  ghost predicate Consistent(s: State) {
    && (forall k :: LaunchOk(s.t, k)) && (forall k :: AttemptOk(s.t, k))
    && (forall c :: CallOk(s, c)) && (forall k :: SessionOk(s, k))
    && (forall k :: k in s.t.launches ==> k in s.issued)
    && (forall j, k :: SameInteraction(s.t, j, k) ==> j == k)
    && Distinct(s.sessions)
  }

  lemma FinishedOk(sha: Digest, s: State, c: CallId)
    requires Consistent(s) && c in s.calls && s.calls[c].Bootstrapping?
    ensures Consistent(Finished(sha, s, c))
  {
    var s' := Finished(sha, s, c);
    var id := s.calls[c].id;
    assert CallOk(s, c) && SessionOk(s, id) && LaunchOk(s.t, id);
    if s'.sessions != s.sessions {
      assert id !in s.sessions;
    }
    forall k ensures LaunchOk(s'.t, k) && AttemptOk(s'.t, k) && SessionOk(s', k) {
      assert LaunchOk(s.t, k) && AttemptOk(s.t, k) && SessionOk(s, k);
    }
    forall j, k | SameInteraction(s'.t, j, k) ensures j == k {
      assert SameInteraction(s.t, j, k);
    }
    forall d ensures CallOk(s', d) {
      assert CallOk(s, d);
    }
  }

  /** A step that keeps calls, issued ids and sessions, and neither adds a launch nor reopens one. */
  lemma TablesChanged(s: State, t: Tables)
    requires Consistent(s)
    requires forall k :: k in t.launches ==>
               k in s.t.launches && t.launches[k].context == s.t.launches[k].context
               && t.launches[k].interaction == s.t.launches[k].interaction
               && (s.t.launches[k].consumedAt.Some? ==> t.launches[k].consumedAt.Some?)
    requires forall k :: LaunchOk(t, k)
    requires forall k :: AttemptOk(t, k)
    ensures Consistent(s.(t := t))
  {
    var s' := s.(t := t);
    forall j, k | SameInteraction(s'.t, j, k) ensures j == k {
      assert SameInteraction(s.t, j, k);
    }
    forall c ensures CallOk(s', c) {
      assert CallOk(s, c);
    }
    forall k ensures SessionOk(s', k) {
      assert SessionOk(s, k);
    }
  }

  lemma CreateOk(s: State, id: StateId, interaction: string, c: Context, createdAt: int, expiresAt: int)
    requires Consistent(s) && id !in s.issued && CreateLaunch(s.t, id, interaction, c, createdAt, expiresAt).Ok?
    ensures Consistent(s.(t := CreateLaunch(s.t, id, interaction, c, createdAt, expiresAt).value, issued := s.issued + {id}))
  {
    var s' := s.(t := CreateLaunch(s.t, id, interaction, c, createdAt, expiresAt).value, issued := s.issued + {id});
    forall k ensures LaunchOk(s'.t, k) && AttemptOk(s'.t, k) && SessionOk(s', k) {
      assert LaunchOk(s.t, k) && AttemptOk(s.t, k) && SessionOk(s, k);
    }
    forall j, k | SameInteraction(s'.t, j, k) ensures j == k {
      assert j in s.t.launches && k in s.t.launches ==> SameInteraction(s.t, j, k);
    }
    forall d ensures CallOk(s', d) {
      assert CallOk(s, d);
    }
  }

  lemma TableEventOk(s: State, e: Event, sha: Digest)
    requires Consistent(s)
    requires e.BindingChange? || e.Invalidated? || e.LaunchesCleaned? || e.AttemptsCleaned?
    ensures Consistent(Step(sha, s, e))
  {
    var t := Step(sha, s, e).t;
    forall k ensures LaunchOk(t, k) && AttemptOk(t, k) {
      assert LaunchOk(s.t, k) && AttemptOk(s.t, k);
    }
    TablesChanged(s, t);
  }

  lemma CallsChanged(s: State, calls: map<CallId, Call>)
    requires Consistent(s)
    requires forall c :: CallOk(s.(calls := calls), c)
    ensures Consistent(s.(calls := calls))
  {
    forall k ensures SessionOk(s.(calls := calls), k) {
      assert SessionOk(s, k);
    }
  }

  lemma EndedOk(s: State, c: CallId)
    requires Consistent(s)
    ensures Consistent(Ended(s, c))
  {
    forall d ensures CallOk(Ended(s, c), d) {
      assert CallOk(s, d);
    }
    assert Ended(s, c) == s.(calls := s.calls - {c});
    CallsChanged(s, s.calls - {c});
  }

  lemma BeginOk(s: State, c: CallId, ok: bool, sha: Digest)
    requires Consistent(s) && c in s.calls && s.calls[c].CheckingMember?
    ensures Consistent(Step(sha, s, MemberChecked(c, ok)))
  {
    EndedOk(s, c);
    var call := s.calls[c];
    var begun := Begin(s.t, call.id, call.instance, call.challenge, call.at, call.expiresAt);
    if begun.Ok? {
      forall k ensures LaunchOk(begun.value, k) && AttemptOk(begun.value, k) {
        assert LaunchOk(s.t, k) && AttemptOk(s.t, k);
      }
      TablesChanged(s, begun.value);
      EndedOk(s.(t := begun.value), c);
    }
  }

  lemma CallEventOk(s: State, e: Event, sha: Digest)
    requires Consistent(s) && (e.StartOAuth? || e.LaunchLookedUp? || e.Bootstrap?)
    ensures Consistent(Step(sha, s, e))
  {
    var s' := Step(sha, s, e);
    if e.c in s.calls { EndedOk(s, e.c); }
    assert s' == s.(calls := s'.calls);
    forall d ensures CallOk(s', d) {
      assert CallOk(s, d);
    }
    CallsChanged(s, s'.calls);
  }

  lemma StepOk(sha: Digest, s: State, e: Event)
    requires Consistent(s)
    ensures Consistent(Step(sha, s, e))
  {
    match e
    case LaunchCreated(id, interaction, context, createdAt, expiresAt) =>
      if id !in s.issued && CreateLaunch(s.t, id, interaction, context, createdAt, expiresAt).Ok? {
        CreateOk(s, id, interaction, context, createdAt, expiresAt);
      }
    case MemberChecked(c, ok) => if c in s.calls && s.calls[c].CheckingMember? { BeginOk(s, c, ok, sha); }
    case Exchanged(c, ok) =>
      if c in s.calls && s.calls[c].Bootstrapping? {
        FinishedOk(sha, s, c);
        EndedOk(s, c);
      }
    case StartOAuth(_, _, _, _) => CallEventOk(s, e, sha);
    case LaunchLookedUp(_, _, _, _) => CallEventOk(s, e, sha);
    case Bootstrap(_, _, _, _, _) => CallEventOk(s, e, sha);
    case BindingChange(_) => TableEventOk(s, e, sha);
    case Invalidated(_, _) => TableEventOk(s, e, sha);
    case LaunchesCleaned(_) => TableEventOk(s, e, sha);
    case AttemptsCleaned(_) => TableEventOk(s, e, sha);
  }

  lemma {:induction false} RunOk(sha: Digest, es: seq<Event>)
    ensures Consistent(Run(sha, Initial(), es))
    decreases |es|
  {
    if es != [] {
      RunOk(sha, es[..|es| - 1]);
      StepOk(sha, Run(sha, Initial(), es[..|es| - 1]), es[|es| - 1]);
    }
  }

  // ---------------------------------------------------------------- what each call does, exactly

  /** Letters, digits, underscore and hyphen, by their codes. */
  predicate UrlSafe(c: char) {
    var n := c as int;
    65 <= n <= 90 || 97 <= n <= 122 || 48 <= n <= 57 || n == 95 || n == 45
  }

  /** The shapes of challenge and verifier: 43 characters of base64url; 43 to 128 of those, full stops and
      tildes. */
  lemma ProofKeyShapes(s: string)
    ensures ChallengeOk(s) <==> |s| == 43 && forall c :: c in s ==> UrlSafe(c)
    ensures VerifierOk(s) <==> 43 <= |s| <= 128 && forall c :: c in s ==> UrlSafe(c) || c in ".~"
  {
    forall c: char ensures Unreserved(c) <==> UrlSafe(c) {
    }
    assert (forall i :: 0 <= i < |s| ==> Unreserved(s[i])) <==> forall c :: c in s ==> UrlSafe(c);
    assert (forall i :: 0 <= i < |s| ==> Unreserved(s[i]) || s[i] == '.' || s[i] == '~') <==>
           forall c :: c in s ==> UrlSafe(c) || c in ".~";
  }

  /** A launch is trusted exactly when its project is live, bound to the named Factory Floor project in the
      named guild, and, for a run, its active surface and active run belong together and to the project. */
  lemma TrustedExactly(db: Bindings.Db, c: Context)
    requires ContextShape(c)
    ensures Trusted(db, c) <==>
              && c.project in db.projects && db.projects[c.project].None?
              && c.project in db.bindings && db.bindings[c.project].retiredAt.None?
              && db.bindings[c.project].factoryId == c.factoryProject
              && db.bindings[c.project].guild == c.guild && c.owner == c.guild
              && (c.kind == RunContext ==>
                    && c.surface.value in db.surfaces && c.run.value in db.runs
                    && db.surfaces[c.surface.value].retiredAt.None? && db.runs[c.run.value].retiredAt.None?
                    && db.surfaces[c.surface.value].project == c.project && db.runs[c.run.value].project == c.project
                    && db.surfaces[c.surface.value].guild == c.guild && db.surfaces[c.surface.value].channel == c.channel
                    && (c.thread.Some? ==> db.surfaces[c.surface.value].thread == c.thread)
                    && db.runs[c.run.value].surface == c.surface.value)
  {
  }

  lemma ShapeExactly(c: Context)
    ensures ContextShape(c) <==> (c.surface.Some? <==> c.kind == RunContext) && (c.run.Some? <==> c.kind == RunContext)
  {
  }

  /** A new launch is open and in its own row; an equal one for the same interaction is confirmed. */
  lemma CreateExactly(t: Tables, id: StateId, interaction: string, c: Context, createdAt: int, expiresAt: int)
    requires forall j, k :: SameInteraction(t, j, k) ==> j == k
    ensures var r := CreateLaunch(t, id, interaction, c, createdAt, expiresAt);
            && (r.Ok? <==>
                  && 0 <= createdAt < expiresAt && ContextShape(c) && Trusted(t.db, c)
                  && (forall k :: k in t.launches && t.launches[k].interaction == interaction ==> t.launches[k].context == c)
                  && (id in t.launches ==> exists k :: k in t.launches && t.launches[k].interaction == interaction))
            && (r.Ok? ==>
                  if exists k :: k in t.launches && t.launches[k].interaction == interaction then r.value == t
                  else r.value == t.(launches := t.launches[id := LaunchRow(interaction, c, createdAt, expiresAt, None, None)]))
            && (r == Err(BadTimes) <==> !(0 <= createdAt < expiresAt))
            && (r == Err(BindingMismatch) <==> 0 <= createdAt < expiresAt && ContextShape(c) && !Trusted(t.db, c))
            && (r == Err(InteractionConflict) ==>
                  exists k :: k in t.launches && t.launches[k].interaction == interaction && t.launches[k].context != c)
  {
    forall j, k | j in t.launches && k in t.launches && t.launches[j].interaction == t.launches[k].interaction ensures j == k {
      assert SameInteraction(t, j, k);
    }
  }

  /** A launch is consumed or invalidated only while it is neither, and consumed only before it expires. */
  lemma LaunchStatements(t: Tables, id: StateId, now: int, expected: Context)
    ensures ConsumeLaunch(t, id, now, expected).Some? <==>
              && id in t.launches && t.launches[id].consumedAt.None? && t.launches[id].invalidatedAt.None?
              && now < t.launches[id].expiresAt && t.launches[id].context == expected
              && expected.project in t.db.projects && t.db.projects[expected.project].None?
    ensures ConsumeLaunch(t, id, now, expected).Some? ==>
              ConsumeLaunch(t, id, now, expected).value == t.(launches := t.launches[id := t.launches[id].(consumedAt := Some(now))])
    ensures InvalidateLaunch(t, id, now) ==
              if id in t.launches && t.launches[id].consumedAt.None? && t.launches[id].invalidatedAt.None?
              then t.(launches := t.launches[id := t.launches[id].(invalidatedAt := Some(now))]) else t
  {
  }

  /** Cleaning up keeps exactly the launches still to be used, with their attempts, and the attempts still
      to be used. */
  lemma CleanupExactly(t: Tables, now: int, k: StateId)
    ensures CleanupLaunches(t, now).db == t.db && CleanupAttempts(t, now).db == t.db && CleanupAttempts(t, now).launches == t.launches
    ensures var kept := k in t.launches && t.launches[k].consumedAt.None? && t.launches[k].invalidatedAt.None? && now < t.launches[k].expiresAt;
            && Lookup(CleanupLaunches(t, now).launches, k) == (if kept then Some(t.launches[k]) else None)
            && Lookup(CleanupLaunches(t, now).attempts, k) == (if kept then Lookup(t.attempts, k) else None)
    ensures Lookup(CleanupAttempts(t, now).attempts, k) ==
              if k in t.attempts && t.attempts[k].consumedAt.None? && now < t.attempts[k].expiresAt then Some(t.attempts[k]) else None
  {
  }

  /** An attempt begins within an open launch's lifetime; an equal pending one is confirmed. */
  lemma BeginExactly(t: Tables, id: StateId, instance: string, challenge: string, createdAt: int, expiresAt: int)
    ensures var r := Begin(t, id, instance, challenge, createdAt, expiresAt);
            && (r.Ok? <==>
                  && ChallengeOk(challenge) && 0 <= createdAt < expiresAt && Current(t, id, createdAt)
                  && expiresAt <= t.launches[id].expiresAt
                  && (id in t.attempts ==>
                        && t.attempts[id].instance == instance && t.attempts[id].challenge == challenge
                        && t.attempts[id].consumedAt.None? && createdAt < t.attempts[id].expiresAt))
            && (r.Ok? ==>
                  if id in t.attempts then r.value == t
                  else r.value == t.(attempts := t.attempts[id := Attempt(instance, challenge, createdAt, expiresAt, None)]))
            && (r == Err(BadChallenge) <==> !ChallengeOk(challenge))
            && (r == Err(LaunchUnavailable) <==> ChallengeOk(challenge) && 0 <= createdAt < expiresAt && !Current(t, id, createdAt))
            && (r == Err(ExpiryExceedsLaunch) ==> id in t.launches && expiresAt > t.launches[id].expiresAt)
            && (r == Err(AttemptConflict) ==> id in t.attempts)
  {
  }

  /** What a proof-key attempt asks of its verifier, and a bootstrap of its launch: nothing expired, nothing
      used, the instance it began with, and the digest of a well-formed verifier. */
  lemma VerifiesExactly(sha: Digest, t: Tables, id: StateId, instance: string, verifier: string, now: int)
    ensures VerifyAndConsume(sha, t, id, instance, verifier, now).Some? <==>
              && VerifierOk(verifier)
              && id in t.attempts && t.attempts[id].instance == instance && t.attempts[id].challenge == sha(verifier)
              && t.attempts[id].consumedAt.None? && now < t.attempts[id].expiresAt
              && id in t.launches && t.launches[id].consumedAt.None? && t.launches[id].invalidatedAt.None? && now < t.launches[id].expiresAt
    ensures VerifyAndConsume(sha, t, id, instance, verifier, now).Some? ==>
              VerifyAndConsume(sha, t, id, instance, verifier, now).value ==
                t.(attempts := t.attempts[id := t.attempts[id].(consumedAt := Some(now))])
  {
  }

  /** Which calls go on: a bootstrap with a current launch and a pending attempt, a lookup that finds a
      current launch, whose attempt then expires no later than the launch. */
  lemma AdmittedExactly(sha: Digest, s: State, c: CallId, id: StateId, instance: string, verifier: string, at: int)
    requires c !in s.calls
    ensures var s' := Step(sha, s, Bootstrap(c, id, instance, verifier, at));
            && (c in s'.calls <==>
                  && VerifierOk(verifier) && id in s.t.launches && id in s.t.attempts
                  && s.t.launches[id].consumedAt.None? && s.t.launches[id].invalidatedAt.None? && at < s.t.launches[id].expiresAt
                  && s.t.attempts[id].instance == instance && s.t.attempts[id].challenge == sha(verifier)
                  && s.t.attempts[id].consumedAt.None? && at < s.t.attempts[id].expiresAt)
            && (c in s'.calls ==> s' == s.(calls := s.calls[c := Bootstrapping(id, instance, verifier, at, s.t.launches[id].context)]))
  {
  }

  lemma LookedUpExactly(sha: Digest, s: State, c: CallId, interaction: string, ttl: nat, id: StateId)
    requires Consistent(s) && c in s.calls && s.calls[c].FindingLaunch?
    requires id in s.t.launches && s.t.launches[id].interaction == interaction
    ensures var s' := Step(sha, s, LaunchLookedUp(c, true, interaction, ttl));
            var call, l := s.calls[c], s.t.launches[id];
            if l.consumedAt.None? && l.invalidatedAt.None? && call.at < l.expiresAt then
              && c in s'.calls && s' == s.(calls := s.calls[c := s'.calls[c]]) && s'.calls[c].CheckingMember?
              && s'.calls[c].id == id && s'.calls[c].instance == call.instance && s'.calls[c].challenge == call.challenge
              && s'.calls[c].at == call.at
              && s'.calls[c].expiresAt <= l.expiresAt && s'.calls[c].expiresAt <= call.at + ttl
              && s'.calls[c].expiresAt in {l.expiresAt, call.at + ttl}
            else s' == Ended(s, c)
  {
    forall k | k in s.t.launches && s.t.launches[k].interaction == interaction ensures k == id {
      assert SameInteraction(s.t, k, id);
    }
  }

  /** The last segment: a session is requested exactly when attempt, launch and project all still allow it. */
  lemma SessionExactly(sha: Digest, s: State, c: CallId)
    requires c in s.calls && s.calls[c].Bootstrapping?
    ensures var call := s.calls[c];
            var s' := Step(sha, s, Exchanged(c, true));
            && s'.calls == s.calls - {c} && s'.issued == s.issued && s'.t.db == s.t.db
            && (s'.sessions == s.sessions + [call.id] <==>
                  && VerifyAndConsume(sha, s.t, call.id, call.instance, call.verifier, call.at).Some?
                  && s.t.launches[call.id].context == call.context
                  && call.context.project in s.t.db.projects && s.t.db.projects[call.context.project].None?)
            && s'.sessions in {s.sessions, s.sessions + [call.id]}
    ensures Step(sha, s, Exchanged(c, false)) == Ended(s, c)
  {
  }

  /** The other segments: a launch is created under a fresh id, an attempt begins once membership is
      confirmed, and whatever fails ends its call and changes no table. */
  lemma SegmentsExactly(sha: Digest, s: State, e: Event)
    ensures e.LaunchCreated? ==>
              var r := CreateLaunch(s.t, e.id, e.interaction, e.context, e.createdAt, e.expiresAt);
              Step(sha, s, e) == if e.id !in s.issued && r.Ok? then s.(t := r.value, issued := s.issued + {e.id}) else s
    ensures e.Invalidated? ==> Step(sha, s, e) == s.(t := InvalidateLaunch(s.t, e.id, e.at))
    ensures e.LaunchesCleaned? ==> Step(sha, s, e) == s.(t := CleanupLaunches(s.t, e.now))
    ensures e.AttemptsCleaned? ==> Step(sha, s, e) == s.(t := CleanupAttempts(s.t, e.now))
    ensures e.BindingChange? ==> Step(sha, s, e) == s.(t := s.t.(db := Bindings.Step(s.t.db, e.change)))
    ensures e.StartOAuth? && e.c !in s.calls ==>
              Step(sha, s, e) ==
                if ChallengeOk(e.challenge) then s.(calls := s.calls[e.c := FindingLaunch(e.instance, e.challenge, e.at)]) else s
    ensures e.LaunchLookedUp? && e.c in s.calls && s.calls[e.c].FindingLaunch? && !e.ok ==> Step(sha, s, e) == s.(calls := s.calls - {e.c})
    ensures e.MemberChecked? && e.c in s.calls && s.calls[e.c].CheckingMember? ==>
              var call := s.calls[e.c];
              var r := Begin(s.t, call.id, call.instance, call.challenge, call.at, call.expiresAt);
              Step(sha, s, e) == s.(t := if e.ok && r.Ok? then r.value else s.t, calls := s.calls - {e.c})
  {
  }

  lemma RunSteps(sha: Digest, s: State, es: seq<Event>, e: Event)
    ensures Run(sha, s, []) == s && Run(sha, s, es + [e]) == Step(sha, Run(sha, s, es), e)
  {
    assert (es + [e])[..|es + [e]| - 1] == es;
  }

  // ---------------------------------------------------------------- what the protocol promises

  /** At most one `bootstrap` per launch reaches session creation; a launch is never both consumed and
      invalidated; an attempt never outlives its launch. */
  lemma OneTimeLaunch(sha: Digest, es: seq<Event>, k: StateId)
    ensures var s := Run(sha, Initial(), es);
            && Distinct(s.sessions)
            && (k in s.t.launches ==> !(s.t.launches[k].consumedAt.Some? && s.t.launches[k].invalidatedAt.Some?))
            && (k in s.t.attempts ==> k in s.t.launches && s.t.attempts[k].expiresAt <= s.t.launches[k].expiresAt)
  {
    RunOk(sha, es);
    var s := Run(sha, Initial(), es);
    assert LaunchOk(s.t, k) && AttemptOk(s.t, k);
  }

  /** The consuming step, exactly: an attempt becomes consumed only by a bootstrap whose verifier hashes to
      its challenge, and then its launch is consumed and the session requested in the same step if and
      only if the project has not been archived meanwhile. */
  lemma ConsumedTogether(sha: Digest, es: seq<Event>, c: CallId)
    requires var s := Run(sha, Initial(), es); c in s.calls && s.calls[c].Bootstrapping?
    ensures var s := Run(sha, Initial(), es);
            var s' := Step(sha, s, Exchanged(c, true));
            var call := s.calls[c];
            if Verifies(sha, s.t, call.id, call.instance, call.verifier, call.at) then
              && call.id in s'.t.attempts && s'.t.attempts[call.id] == s.t.attempts[call.id].(consumedAt := Some(call.at))
              && s.t.attempts[call.id].challenge == sha(call.verifier)
              && (Bindings.ProjectActive(s.t.db, call.context.project) <==> s'.t.launches != s.t.launches)
              && (Bindings.ProjectActive(s.t.db, call.context.project) <==> s'.sessions == s.sessions + [call.id])
              && (s'.t.launches == s.t.launches
                  || s'.t.launches == s.t.launches[call.id := s.t.launches[call.id].(consumedAt := Some(call.at))])
            else s'.t == s.t && s'.sessions == s.sessions
  {
    RunOk(sha, es);
    var s := Run(sha, Initial(), es);
    assert CallOk(s, c);
    var call := s.calls[c];
    if Verifies(sha, s.t, call.id, call.instance, call.verifier, call.at) {
      var t := VerifyAndConsume(sha, s.t, call.id, call.instance, call.verifier, call.at).value;
      var consumed := ConsumeLaunch(t, call.id, call.at, call.context);
      assert consumed.Some? <==> Bindings.ProjectActive(s.t.db, call.context.project);
      if consumed.Some? {
        assert consumed.value.launches[call.id] != s.t.launches[call.id];
      }
    }
  }

  /** No other event consumes an attempt or a launch. */
  lemma OnlyExchangeConsumes(sha: Digest, s: State, e: Event, k: StateId)
    requires !e.Exchanged?
    ensures var s' := Step(sha, s, e);
            && (k in s'.t.attempts && s'.t.attempts[k].consumedAt.Some? ==> k in s.t.attempts && s.t.attempts[k].consumedAt.Some?)
            && (k in s'.t.launches && s'.t.launches[k].consumedAt.Some? ==> k in s.t.launches && s.t.launches[k].consumedAt.Some?)
            && s'.sessions == s.sessions
  {
  }
}
