/**
 The launch and attempt repositories over one set of tables, and the bootstrap service's segments on them.
 Every method is proved to take the tables or the state to the matching specification.
 */
module LaunchService {
  import opened Common
  import opened Launch
  import Bindings

  class LaunchStore {
    const bindings: Bindings.BindingRepository
    var launches: map<StateId, LaunchRow>
    var attempts: map<StateId, Attempt>

    ghost function View(): Tables
      reads this, bindings
    {
      Tables(bindings.View(), launches, attempts)
    }

    constructor (bindings: Bindings.BindingRepository)
      ensures this.bindings == bindings && launches == map[] && attempts == map[]
    {
      this.bindings := bindings;
      launches, attempts := map[], map[];
    }

    method CheckTrusted(c: Context) returns (ok: bool)
      ensures ok <==> Trusted(bindings.View(), c)
    {
      if c.project !in bindings.projects || bindings.projects[c.project].Some? || c.project !in bindings.bindings {
        return false;
      }
      var binding := bindings.bindings[c.project];
      if binding.retiredAt.Some? || binding.factoryId != c.factoryProject || binding.guild != c.guild || binding.guild != c.owner {
        return false;
      }
      if c.kind == ProjectContext {
        return true;
      }
      if c.surface.None? || c.surface.value !in bindings.surfaces || !TrustedSurface(bindings.surfaces[c.surface.value], c) {
        return false;
      }
      return c.run.Some? && c.run.value in bindings.runs && TrustedRun(bindings.runs[c.run.value], c);
    }

    method Create(id: StateId, interaction: string, c: Context, createdAt: int, expiresAt: int) returns (r: Result<(), LaunchError>)
      requires forall j, k :: SameInteraction(View(), j, k) ==> j == k
      modifies this`launches
      ensures match CreateLaunch(old(View()), id, interaction, c, createdAt, expiresAt)
              case Ok(t) => r == Ok(()) && View() == t
              case Err(e) => r == Err(e) && View() == old(View())
    {
      if createdAt < 0 || expiresAt <= createdAt {
        return Err(BadTimes);
      }
      if !ContextShape(c) {
        return Err(BadContext);
      }
      var trusted := CheckTrusted(c);
      if !trusted {
        return Err(BindingMismatch);
      }
      if exists k :: k in launches && launches[k].interaction == interaction {
        var k :| k in launches && launches[k].interaction == interaction;
        if launches[k].context == c {
          return Ok(());
        }
        assert forall j :: j in launches && launches[j].interaction == interaction ==> SameInteraction(View(), j, k);
        return Err(InteractionConflict);
      }
      if id in launches {
        return Err(StateConflict);
      }
      launches := launches[id := LaunchRow(interaction, c, createdAt, expiresAt, None, None)];
      return Ok(());
    }

    method Consume(id: StateId, now: int, expected: Context) returns (ok: bool)
      modifies this`launches
      ensures ok <==> ConsumeLaunch(old(View()), id, now, expected).Some?
      ensures View() == if ok then ConsumeLaunch(old(View()), id, now, expected).value else old(View())
    {
      if id !in launches || expected.project !in bindings.projects || bindings.projects[expected.project].Some? {
        return false;
      }
      var row := launches[id];
      if row.consumedAt.Some? || row.invalidatedAt.Some? || row.expiresAt <= now || row.context != expected {
        return false;
      }
      launches := launches[id := row.(consumedAt := Some(now))];
      return true;
    }

    method Invalidate(id: StateId, at: int) returns (changed: bool)
      modifies this`launches
      ensures View() == InvalidateLaunch(old(View()), id, at)
      ensures changed <==> id in old(launches) && Open(old(launches)[id])
    {
      changed := id in launches && launches[id].consumedAt.None? && launches[id].invalidatedAt.None?;
      if changed {
        launches := launches[id := launches[id].(invalidatedAt := Some(at))];
      }
    }

    method CleanupLaunchRows(now: int)
      modifies this
      ensures View() == CleanupLaunches(old(View()), now)
    {
      attempts := map k | k in attempts && k in launches && Kept(launches[k], now) :: attempts[k];
      launches := map k | k in launches && Kept(launches[k], now) :: launches[k];
    }

    method BeginAttempt(id: StateId, instance: string, challenge: string, createdAt: int, expiresAt: int)
      returns (r: Result<(), LaunchError>)
      modifies this`attempts
      ensures match Begin(old(View()), id, instance, challenge, createdAt, expiresAt)
              case Ok(t) => r == Ok(()) && View() == t
              case Err(e) => r == Err(e) && View() == old(View())
    {
      if !ChallengeOk(challenge) {
        return Err(BadChallenge);
      }
      if createdAt < 0 || expiresAt <= createdAt {
        return Err(BadTimes);
      }
      if id !in launches || !Open(launches[id]) || launches[id].expiresAt <= createdAt {
        return Err(LaunchUnavailable);
      }
      if expiresAt > launches[id].expiresAt {
        return Err(ExpiryExceedsLaunch);
      }
      if id in attempts {
        var existing := attempts[id];
        if existing.instance == instance && existing.challenge == challenge
           && existing.consumedAt.None? && existing.expiresAt > createdAt
        {
          return Ok(());
        }
        return Err(AttemptConflict);
      }
      attempts := attempts[id := Attempt(instance, challenge, createdAt, expiresAt, None)];
      return Ok(());
    }

    /** One transaction: every check, then the update. */
    method Verify(sha: Digest, id: StateId, instance: string, verifier: string, now: int) returns (ok: bool)
      modifies this`attempts
      ensures ok <==> VerifyAndConsume(sha, old(View()), id, instance, verifier, now).Some?
      ensures View() == if ok then VerifyAndConsume(sha, old(View()), id, instance, verifier, now).value else old(View())
    {
      if !VerifierOk(verifier) || id !in attempts || id !in launches {
        return false;
      }
      var current := attempts[id];
      if current.instance != instance || current.challenge != sha(verifier) || current.consumedAt.Some? || current.expiresAt <= now {
        return false;
      }
      if launches[id].expiresAt <= now || !Open(launches[id]) {
        return false;
      }
      attempts := attempts[id := current.(consumedAt := Some(now))];
      return true;
    }

    method CleanupAttemptRows(now: int)
      modifies this`attempts
      ensures View() == CleanupAttempts(old(View()), now)
    {
      attempts := map k | k in attempts && attempts[k].expiresAt > now && attempts[k].consumedAt.None? :: attempts[k];
    }
  }

  /** The calls in flight and the sessions they have requested. */
  class BootstrapService {
    const store: LaunchStore
    const sha: Digest
    var calls: map<CallId, Call>
    ghost var issued: set<StateId>
    ghost var sessions: seq<StateId>

    ghost function View(): State
      reads this, store, store.bindings
    {
      State(store.View(), calls, issued, sessions)
    }

    constructor (store: LaunchStore, sha: Digest)
      ensures this.store == store && this.sha == sha && calls == map[] && issued == {} && sessions == []
    {
      this.store := store;
      this.sha := sha;
      calls, issued, sessions := map[], {}, [];
    }

    method OAuthStarted(c: CallId, instance: string, challenge: string, at: int)
      modifies this`calls
      ensures View() == Step(sha, old(View()), StartOAuth(c, instance, challenge, at))
    {
      if c !in calls && ChallengeOk(challenge) {
        calls := calls[c := FindingLaunch(instance, challenge, at)];
      }
    }

    /** The Activity instance is known: find its launch and fix the attempt's expiry. */
    method InstanceFound(c: CallId, interaction: string, ttl: nat)
      requires forall j, k :: SameInteraction(store.View(), j, k) ==> j == k
      modifies this`calls
      ensures View() == Step(sha, old(View()), LaunchLookedUp(c, true, interaction, ttl))
    {
      if c !in calls || !calls[c].FindingLaunch? {
        return;
      }
      var call := calls[c];
      if !exists k :: k in store.launches && store.launches[k].interaction == interaction {
        calls := calls - {c};
        return;
      }
      var id :| id in store.launches && store.launches[id].interaction == interaction;
      assert forall k :: k in store.launches && store.launches[k].interaction == interaction ==> SameInteraction(store.View(), id, k);
      var launch := store.launches[id];
      if !Open(launch) || launch.expiresAt <= call.at {
        calls := calls - {c};
        return;
      }
      var expiresAt := if launch.expiresAt < call.at + ttl then launch.expiresAt else call.at + ttl;
      calls := calls[c := CheckingMember(id, call.instance, call.challenge, call.at, expiresAt)];
    }

    method MemberAnswered(c: CallId, ok: bool)
      modifies this`calls, store`attempts
      ensures View() == Step(sha, old(View()), MemberChecked(c, ok))
    {
      if c !in calls || !calls[c].CheckingMember? {
        return;
      }
      var call := calls[c];
      if ok {
        var _ := store.BeginAttempt(call.id, call.instance, call.challenge, call.at, call.expiresAt);
      }
      calls := calls - {c};
    }

    method BootstrapStarted(c: CallId, id: StateId, instance: string, verifier: string, at: int)
      modifies this`calls
      ensures View() == Step(sha, old(View()), Bootstrap(c, id, instance, verifier, at))
    {
      if c in calls || !VerifierOk(verifier) || id !in store.launches || id !in store.attempts {
        return;
      }
      var launch := store.launches[id];
      if !Open(launch) || launch.expiresAt <= at {
        return;
      }
      var attempt := store.attempts[id];
      if attempt.instance != instance || attempt.consumedAt.Some? || attempt.expiresAt <= at || attempt.challenge != sha(verifier) {
        return;
      }
      calls := calls[c := Bootstrapping(id, instance, verifier, at, launch.context)];
    }

    /** The last segment: attempt, then launch, then the session. */
    method ExchangeAnswered(c: CallId, ok: bool) returns (requested: bool)
      modifies this`calls, this`sessions, store
      ensures View() == Step(sha, old(View()), Exchanged(c, ok))
      ensures requested <==> sessions != old(sessions)
    {
      requested := false;
      if c !in calls || !calls[c].Bootstrapping? {
        return;
      }
      var call := calls[c];
      calls := calls - {c};
      if !ok {
        return;
      }
      var verified := store.Verify(sha, call.id, call.instance, call.verifier, call.at);
      if !verified {
        return;
      }
      requested := store.Consume(call.id, call.at, call.context);
      if requested {
        sessions := sessions + [call.id];
        assert |sessions| == |old(sessions)| + 1;
      }
    }
  }
}
