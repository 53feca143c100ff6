/**
 Missions: the evidence-driven state machine, the repository's one table with three indexes, and the
 snapshot it is saved to and rebuilt from. Empty strings count as missing, as they do in the source.
 */
module Missions {
  import opened Common

  type MissionId = string

  datatype MissionState =
    | Captured | Routed | AwaitingClaim | Claimed | InProgress
    | Verified | ChangesRequested | AwaitingLaura | Done | Cancelled

  datatype Kind = CaptureKind | RouteKind | WakeKind | ClaimKind | ExecutionKind | VerificationKind | CompletionKind
    | CancellationKind | RerouteKind

  datatype Evidence = Evidence(kind: Kind, reference: string, recordedAt: string)

  datatype Binding = Binding(id: MissionId, key: string, source: string, thread: string, packet: string)

  datatype Mission = Mission(
    binding: Binding, state: MissionState, owner: Option<string>, evidence: seq<Evidence>,
    blocker: Option<string>, retryTrigger: Option<string>, nextAction: Option<string>, lauraNeeded: bool)

  datatype MissionError =
    | IdentityMissing | OwnerMissing | EvidenceMissing | CaptureRequired | IndexesDisagree | BoundDifferently
    | DuplicateMission | DuplicateBinding | UnknownMission | IllegalTransition | FreshEvidenceRequired | BadVersion

  // ---------------------------------------------------------------- validation

  function Kinds(evidence: seq<Evidence>): seq<Kind> { seq(|evidence|, i requires 0 <= i < |evidence| => evidence[i].kind) }

  predicate HasKind(m: Mission, k: Kind) { exists i :: 0 <= i < |m.evidence| && m.evidence[i].kind == k }

  predicate HasKinds(m: Mission, ks: seq<Kind>) { forall i :: 0 <= i < |ks| ==> HasKind(m, ks[i]) }

  predicate Owned(m: Mission) { m.owner.Some? && m.owner.value != "" }

  predicate IdentityOk(b: Binding) { b.id != "" && b.key != "" && b.source != "" && b.thread != "" && b.packet != "" }

  /** The checks in their order: identity, capture, then what the state needs. */
  function Validate(m: Mission): Option<MissionError> {
    if !IdentityOk(m.binding) then Some(IdentityMissing)
    else if !HasKind(m, CaptureKind) then Some(EvidenceMissing)
    else
      match m.state
      case Captured => None
      case Routed =>
        if !Owned(m) then Some(OwnerMissing) else Missing(m, [RouteKind])
      case AwaitingClaim =>
        if !Owned(m) then Some(OwnerMissing) else Missing(m, [RouteKind, WakeKind])
      case Claimed =>
        if !Owned(m) then Some(OwnerMissing) else Missing(m, [RouteKind, WakeKind, ClaimKind])
      case InProgress =>
        if !Owned(m) then Some(OwnerMissing) else Missing(m, [RouteKind, WakeKind, ClaimKind, ExecutionKind])
      case Done =>
        Missing(m, [RouteKind, WakeKind, ClaimKind, ExecutionKind, VerificationKind, CompletionKind])
      case Cancelled => Missing(m, [CancellationKind])
      case _ => Missing(m, [RouteKind, WakeKind, ClaimKind, ExecutionKind, VerificationKind])
  }

  function Missing(m: Mission, required: seq<Kind>): Option<MissionError> {
    if HasKinds(m, required) then None else Some(EvidenceMissing)
  }

  // ---------------------------------------------------------------- transitions

  function AllowedTransitions(s: MissionState): set<MissionState> {
    match s
    case Captured => {Routed, Cancelled}
    case Routed => {AwaitingClaim, Routed, Cancelled}
    case AwaitingClaim => {Claimed, Routed, Cancelled}
    case Claimed => {InProgress, Routed, Cancelled}
    case InProgress => {Verified, ChangesRequested, AwaitingLaura, Cancelled}
    case Verified => {Done, ChangesRequested, AwaitingLaura, Cancelled}
    case ChangesRequested => {InProgress, Routed, Cancelled}
    case AwaitingLaura => {Done, ChangesRequested, Cancelled}
    case Done => {}
    case Cancelled => {}
  }

  function RequiredEvidence(current: MissionState, next: MissionState): Kind {
    match next
    case Routed => if current == Captured then RouteKind else RerouteKind
    case AwaitingClaim => WakeKind
    case Claimed => ClaimKind
    case InProgress => ExecutionKind
    case Verified => VerificationKind
    case ChangesRequested => VerificationKind
    case AwaitingLaura => VerificationKind
    case Done => CompletionKind
    case Cancelled => CancellationKind
    case Captured => CaptureKind
  }

  datatype Move = Move(
    state: MissionState, owner: Option<string>, evidence: Option<Evidence>,
    blocker: Option<string>, retryTrigger: Option<string>, nextAction: Option<string>, lauraNeeded: Option<bool>)

  function Moved(m: Mission, t: Move): Mission
    requires t.evidence.Some?
  {
    m.(state := t.state, owner := if t.owner.Some? then t.owner else m.owner, evidence := m.evidence + [t.evidence.value],
       blocker := t.blocker, retryTrigger := t.retryTrigger, nextAction := t.nextAction,
       lauraNeeded := t.lauraNeeded.Some? && t.lauraNeeded.value)
  }

  function MoveMission(m: Mission, t: Move): Result<Mission, MissionError> {
    if t.state !in AllowedTransitions(m.state) then Err(IllegalTransition)
    else if t.evidence.None? || t.evidence.value.kind != RequiredEvidence(m.state, t.state) then Err(FreshEvidenceRequired)
    else
      var next := Moved(m, t);
      match Validate(next) case None => Ok(next) case Some(e) => Err(e)
  }

  // ---------------------------------------------------------------- the repository's state

  datatype Repository = Repository(
    missions: map<MissionId, Mission>, byKey: map<string, MissionId>, bySource: map<string, MissionId>, byThread: map<string, MissionId>)

  /** Inserting fills the indexes one after the other; a duplicate leaves those before it filled. */
  function Insert(r: Repository, m: Mission): (Repository, Option<MissionError>) {
    var b := m.binding;
    if b.id in r.missions then (r, Some(DuplicateMission))
    else if b.key in r.byKey then (r, Some(DuplicateBinding))
    else
      var r1 := r.(byKey := r.byKey[b.key := b.id]);
      if b.source in r.bySource then (r1, Some(DuplicateBinding))
      else
        var r2 := r1.(bySource := r.bySource[b.source := b.id]);
        if b.thread in r.byThread then (r2, Some(DuplicateBinding))
        else (r2.(byThread := r.byThread[b.thread := b.id], missions := r.missions[b.id := m]), None)
  }

  datatype Column = KeyColumn | SourceColumn | ThreadColumn

  function Cell(b: Binding, c: Column): string {
    match c case KeyColumn => b.key case SourceColumn => b.source case ThreadColumn => b.thread
  }

  function Index(r: Repository, c: Column): map<string, MissionId> {
    match c case KeyColumn => r.byKey case SourceColumn => r.bySource case ThreadColumn => r.byThread
  }

  /** An id that one of the indexes gives for the binding. */
  predicate Candidate(r: Repository, b: Binding, id: MissionId) {
    && id != ""
    && (|| Lookup(r.byKey, b.key) == Some(id) || Lookup(r.bySource, b.source) == Some(id) || Lookup(r.byThread, b.thread) == Some(id))
  }

  function NewMission(b: Binding, capture: Evidence): Mission {
    Mission(b, Captured, None, [capture], None, None, None, false)
  }

  ghost function Promote(r: Repository, b: Binding, capture: Evidence): (Repository, Result<Mission, MissionError>) {
    if capture.kind != CaptureKind then (r, Err(CaptureRequired))
    else if exists x, y :: Candidate(r, b, x) && Candidate(r, b, y) && x != y then (r, Err(IndexesDisagree))
    else if exists x :: Candidate(r, b, x) then
      var id :| Candidate(r, b, id);
      if id !in r.missions then (r, Err(UnknownMission))
      else if r.missions[id].binding != b then (r, Err(BoundDifferently))
      else (r, Ok(r.missions[id]))
    else
      var m := NewMission(b, capture);
      match Validate(m)
      case Some(e) => (r, Err(e))
      case None =>
        var (r', failed) := Insert(r, m);
        (r', if failed.Some? then Err(failed.value) else Ok(m))
  }

  function Transition(r: Repository, id: MissionId, t: Move): (Repository, Result<Mission, MissionError>) {
    if id !in r.missions then (r, Err(UnknownMission))
    else
      match MoveMission(r.missions[id], t)
      case Err(e) => (r, Err(e))
      case Ok(next) => (r.(missions := r.missions[id := next]), Ok(next))
  }

  function Empty(): Repository { Repository(map[], map[], map[], map[]) }

  /** Rebuilding stops at the first record that is invalid or clashes. */
  function Rebuild(r: Repository, missions: seq<Mission>): Result<Repository, MissionError>
    decreases |missions|
  {
    if missions == [] then Ok(r)
    else
      match Validate(missions[0])
      case Some(e) => Err(e)
      case None =>
        var (r', failed) := Insert(r, missions[0]);
        if failed.Some? then Err(failed.value) else Rebuild(r', missions[1..])
  }

  function FromSnapshot(version: int, missions: seq<Mission>): Result<Repository, MissionError> {
    if version != 1 then Err(BadVersion) else Rebuild(Empty(), missions)
  }

  // ---------------------------------------------------------------- evidence is a path

  /** The states a mission went through, one for each piece of evidence. */
  predicate Path(states: seq<MissionState>, kinds: seq<Kind>) {
    && |states| == |kinds| >= 1 && states[0] == Captured && kinds[0] == CaptureKind
    && forall i :: 0 <= i < |states| - 1 ==> PathStep(states, kinds, i)
  }

  predicate PathStep(states: seq<MissionState>, kinds: seq<Kind>, i: nat)
    requires i + 1 < |states| == |kinds|
  {
    states[i + 1] in AllowedTransitions(states[i]) && kinds[i + 1] == RequiredEvidence(states[i], states[i + 1])
  }

  ghost predicate Traced(m: Mission) {
    exists states :: Path(states, Kinds(m.evidence)) && states[|states| - 1] == m.state
  }

  /** The kinds a state cannot be reached without. */
  function Needed(s: MissionState): seq<Kind> {
    match s
    case Captured => [CaptureKind]
    case Routed => [CaptureKind, RouteKind]
    case AwaitingClaim => [CaptureKind, RouteKind, WakeKind]
    case Claimed => [CaptureKind, RouteKind, WakeKind, ClaimKind]
    case InProgress => [CaptureKind, RouteKind, WakeKind, ClaimKind, ExecutionKind]
    case Verified => [CaptureKind, RouteKind, WakeKind, ClaimKind, ExecutionKind, VerificationKind]
    case ChangesRequested => [CaptureKind, RouteKind, WakeKind, ClaimKind, ExecutionKind, VerificationKind]
    case AwaitingLaura => [CaptureKind, RouteKind, WakeKind, ClaimKind, ExecutionKind, VerificationKind]
    case Done => [CaptureKind, RouteKind, WakeKind, ClaimKind, ExecutionKind, VerificationKind, CompletionKind]
    case Cancelled => [CaptureKind, CancellationKind]
  }

  lemma NeededStep(s: MissionState, next: MissionState, k: Kind)
    requires next in AllowedTransitions(s) && k in Needed(next)
    ensures k in Needed(s) || k == RequiredEvidence(s, next)
  {
  }

  /** On every path, what a state needs is among the evidence up to it. */
  lemma {:induction false} PathHasNeeded(states: seq<MissionState>, kinds: seq<Kind>, n: nat, k: Kind)
    requires Path(states, kinds) && n < |states| && k in Needed(states[n])
    ensures k in kinds[..n + 1]
    decreases n
  {
    if n == 0 {
      assert kinds[..1][0] == kinds[0];
    } else {
      assert PathStep(states, kinds, n - 1);
      NeededStep(states[n - 1], states[n], k);
      if k == RequiredEvidence(states[n - 1], states[n]) {
        assert kinds[..n + 1][n] == k;
      } else {
        PathHasNeeded(states, kinds, n - 1, k);
        assert kinds[..n] <= kinds[..n + 1];
      }
    }
  }

  /** The milestone before each milestone. */
  function Before(k: Kind): Option<Kind> {
    match k
    case WakeKind => Some(RouteKind)
    case ClaimKind => Some(WakeKind)
    case ExecutionKind => Some(ClaimKind)
    case VerificationKind => Some(ExecutionKind)
    case CompletionKind => Some(VerificationKind)
    case _ => None
  }

  lemma MilestoneNeeds(s: MissionState, next: MissionState)
    requires next in AllowedTransitions(s) && Before(RequiredEvidence(s, next)).Some?
    ensures Before(RequiredEvidence(s, next)).value in Needed(s)
  {
  }

  /** On every path, each milestone comes after the one before it. */
  lemma MilestoneOrder(states: seq<MissionState>, kinds: seq<Kind>, j: nat)
    requires Path(states, kinds) && j < |kinds| && Before(kinds[j]).Some?
    ensures Before(kinds[j]).value in kinds[..j]
  {
    assert PathStep(states, kinds, j - 1);
    MilestoneNeeds(states[j - 1], states[j]);
    PathHasNeeded(states, kinds, j - 1, Before(kinds[j]).value);
  }

  function First(kinds: seq<Kind>, k: Kind): (i: nat)
    ensures i <= |kinds| && (i < |kinds| ==> kinds[i] == k) && k !in kinds[..i]
    ensures k in kinds ==> i < |kinds|
  {
    if kinds == [] || kinds[0] == k then 0
    else
      var i := 1 + First(kinds[1..], k);
      assert kinds == [kinds[0]] + kinds[1..];
      assert kinds[..i] == [kinds[0]] + kinds[1..][..i - 1];
      i
  }

  lemma {:induction false} FirstAtMost(kinds: seq<Kind>, k: Kind, i: nat)
    requires i < |kinds| && kinds[i] == k
    ensures First(kinds, k) <= i
    decreases i
  {
    if i > 0 && kinds[0] != k {
      FirstAtMost(kinds[1..], k, i - 1);
    }
  }

  /** Both occur, and the first `a` comes before the first `b`. */
  predicate Earlier(kinds: seq<Kind>, a: Kind, b: Kind) {
    a in kinds && b in kinds && First(kinds, a) < First(kinds, b)
  }

  lemma FirstsOrdered(states: seq<MissionState>, kinds: seq<Kind>, k: Kind)
    requires Path(states, kinds) && k in kinds && Before(k).Some?
    ensures Earlier(kinds, Before(k).value, k)
  {
    var j := First(kinds, k);
    MilestoneOrder(states, kinds, j);
    var i :| 0 <= i < j && kinds[..j][i] == Before(k).value;
    assert kinds[i] == Before(k).value;
    FirstAtMost(kinds, Before(k).value, i);
  }

  lemma DoneHasBefore(m: Mission, k: Kind)
    requires Traced(m) && m.state == Done && Before(k).Some?
    ensures Earlier(Kinds(m.evidence), Before(k).value, k)
  {
    var kinds := Kinds(m.evidence);
    var states :| Path(states, kinds) && states[|states| - 1] == m.state;
    MilestoneReached(k);
    PathHasNeeded(states, kinds, |states| - 1, k);
    assert kinds[..|kinds|] == kinds;
    FirstsOrdered(states, kinds, k);
  }

  /** A mission that is done was first routed, then woken, claimed, executed, verified and completed: each
      milestone is there, and first occurs after the one before it. */
  lemma DoneInOrder(m: Mission)
    requires Traced(m) && m.state == Done
    ensures var ks := Kinds(m.evidence);
            && RouteKind in ks && WakeKind in ks && ClaimKind in ks && ExecutionKind in ks && VerificationKind in ks && CompletionKind in ks
            && First(ks, RouteKind) < First(ks, WakeKind) < First(ks, ClaimKind) < First(ks, ExecutionKind)
            && First(ks, ExecutionKind) < First(ks, VerificationKind) < First(ks, CompletionKind)
  {
    DoneHasBefore(m, WakeKind);
    DoneHasBefore(m, ClaimKind);
    DoneHasBefore(m, ExecutionKind);
    DoneHasBefore(m, VerificationKind);
    DoneHasBefore(m, CompletionKind);
  }

  lemma MilestoneReached(k: Kind)
    requires Before(k).Some?
    ensures k in Needed(Done)
  {
  }

  lemma TracedHas(m: Mission, k: Kind)
    requires Traced(m) && k in Needed(m.state)
    ensures HasKind(m, k)
  {
    var kinds := Kinds(m.evidence);
    var states :| Path(states, kinds) && states[|states| - 1] == m.state;
    PathHasNeeded(states, kinds, |states| - 1, k);
    var i :| 0 <= i < |kinds| && kinds[i] == k;
    assert m.evidence[i].kind == k;
  }

  lemma MovedTraced(m: Mission, t: Move)
    requires Traced(m) && t.state in AllowedTransitions(m.state)
    requires t.evidence.Some? && t.evidence.value.kind == RequiredEvidence(m.state, t.state)
    ensures Traced(Moved(m, t))
  {
    var states :| Path(states, Kinds(m.evidence)) && states[|states| - 1] == m.state;
    var next := Moved(m, t);
    assert Kinds(next.evidence) == Kinds(m.evidence) + [t.evidence.value.kind];
    var states' := states + [t.state];
    forall i | 0 <= i < |states'| - 1 ensures PathStep(states', Kinds(next.evidence), i) {
      assert i < |states| - 1 ==> PathStep(states, Kinds(m.evidence), i);
    }
    assert Path(states', Kinds(next.evidence));
  }

  predicate NeedsOwner(s: MissionState) { s in {Routed, AwaitingClaim, Claimed, InProgress} }

  /** For a mission whose evidence is a path, validation asks for nothing but its identity and, in four
      states, an owner: evidence is never what is missing. */
  lemma TracedValidates(m: Mission)
    requires Traced(m) && IdentityOk(m.binding)
    ensures Validate(m) == if NeedsOwner(m.state) && !Owned(m) then Some(OwnerMissing) else None
  {
    forall k | k in Needed(m.state) ensures HasKind(m, k) {
      TracedHas(m, k);
    }
    assert forall i :: 0 <= i < |Needed(m.state)| ==> Needed(m.state)[i] in Needed(m.state);
    assert CaptureKind == Needed(m.state)[0];
    var later := Needed(m.state)[1..];
    assert HasKinds(m, later) by {
      assert forall i :: 0 <= i < |later| ==> later[i] == Needed(m.state)[i + 1];
    }
  }

  /** A legal move with the required evidence is accepted if and only if the state it leads to needs no
      owner or the mission then has one. */
  lemma LegalMoveAccepted(m: Mission, t: Move)
    requires Traced(m) && IdentityOk(m.binding)
    requires t.state in AllowedTransitions(m.state)
    requires t.evidence.Some? && t.evidence.value.kind == RequiredEvidence(m.state, t.state)
    ensures MoveMission(m, t).Ok? <==> (NeedsOwner(t.state) ==> Owned(Moved(m, t)))
  {
    MovedTraced(m, t);
    TracedValidates(Moved(m, t));
  }

  // ---------------------------------------------------------------- the indexes

  ghost predicate EntryOk(r: Repository, c: Column, k: string) {
    k in Index(r, c) ==> Index(r, c)[k] in r.missions && Cell(r.missions[Index(r, c)[k]].binding, c) == k
  }

  ghost predicate RowOk(r: Repository, c: Column, id: MissionId) {
    id in r.missions ==> Lookup(Index(r, c), Cell(r.missions[id].binding, c)) == Some(id)
  }

  /** Each index is exactly the inverse of its column. */
  ghost predicate Agrees(r: Repository) {
    && (forall c, k :: EntryOk(r, c, k)) && (forall c, id :: RowOk(r, c, id))
  }

  ghost predicate MissionOk(m: Mission) { Traced(m) && IdentityOk(m.binding) && (NeedsOwner(m.state) ==> Owned(m)) }

  ghost predicate StoredOk(r: Repository, id: MissionId) {
    id in r.missions ==> r.missions[id].binding.id == id && MissionOk(r.missions[id])
  }

  ghost predicate RepositoryOk(r: Repository) { Agrees(r) && forall id :: StoredOk(r, id) }

  /** Two missions never share a key: the indexes are injective. */
  lemma IndexInjective(r: Repository, a: MissionId, b: MissionId, c: Column)
    requires Agrees(r) && a in r.missions && b in r.missions
    requires Cell(r.missions[a].binding, c) == Cell(r.missions[b].binding, c)
    ensures a == b
  {
    assert RowOk(r, c, a) && RowOk(r, c, b);
  }

  predicate Unused(r: Repository, b: Binding) { b.id !in r.missions && b.key !in r.byKey && b.source !in r.bySource && b.thread !in r.byThread }

  function Inserted(r: Repository, m: Mission): Repository {
    var b := m.binding;
    Repository(r.missions[b.id := m], r.byKey[b.key := b.id], r.bySource[b.source := b.id], r.byThread[b.thread := b.id])
  }

  lemma InsertAgrees(r: Repository, m: Mission)
    requires Agrees(r) && Unused(r, m.binding)
    ensures Insert(r, m) == (Inserted(r, m), None) && Agrees(Inserted(r, m))
  {
    var r' := Inserted(r, m);
    forall c, k ensures EntryOk(r', c, k) {
      assert EntryOk(r, c, k);
    }
    forall c, id ensures RowOk(r', c, id) {
      assert RowOk(r, c, id);
    }
  }

  lemma NewMissionOk(b: Binding, capture: Evidence)
    requires capture.kind == CaptureKind
    ensures Validate(NewMission(b, capture)).None? <==> IdentityOk(b)
    ensures IdentityOk(b) ==> MissionOk(NewMission(b, capture))
  {
    assert Path([Captured], Kinds([capture]));
    if IdentityOk(b) {
      TracedValidates(NewMission(b, capture));
    }
  }

  lemma MoveOk(m: Mission, t: Move)
    requires MissionOk(m) && MoveMission(m, t).Ok?
    ensures MissionOk(MoveMission(m, t).value) && MoveMission(m, t).value.binding == m.binding
  {
    MovedTraced(m, t);
    TracedValidates(Moved(m, t));
  }

  lemma NoCandidates(r: Repository, b: Binding, c: Column)
    requires RepositoryOk(r) && forall x :: !Candidate(r, b, x)
    ensures Cell(b, c) !in Index(r, c)
  {
    if Cell(b, c) in Index(r, c) {
      var id := Index(r, c)[Cell(b, c)];
      assert EntryOk(r, c, Cell(b, c)) && StoredOk(r, id);
      assert Candidate(r, b, id);
    }
  }

  lemma PromoteNew(r: Repository, b: Binding, capture: Evidence)
    requires RepositoryOk(r) && capture.kind == CaptureKind && (forall x :: !Candidate(r, b, x)) && IdentityOk(b) && b.id !in r.missions
    ensures Insert(r, NewMission(b, capture)) == (Inserted(r, NewMission(b, capture)), None)
    ensures RepositoryOk(Inserted(r, NewMission(b, capture)))
  {
    NoCandidates(r, b, KeyColumn);
    NoCandidates(r, b, SourceColumn);
    NoCandidates(r, b, ThreadColumn);
    InsertAgrees(r, NewMission(b, capture));
    NewMissionOk(b, capture);
    forall id ensures StoredOk(Inserted(r, NewMission(b, capture)), id) {
      assert StoredOk(r, id);
    }
  }

  /** What promoting answers, for every binding: the mission with an equal binding, a new one, or an
      error that changes nothing, so that the half-filled indexes an insert can leave are never seen. */
  lemma PromoteExactly(r: Repository, b: Binding, capture: Evidence)
    requires RepositoryOk(r)
    ensures var (r', answer) := Promote(r, b, capture);
            && (answer.Ok? <==> capture.kind == CaptureKind && IdentityOk(b)
                                && (if b.id in r.missions && r.missions[b.id].binding == b then true
                                    else b.id !in r.missions && forall x :: !Candidate(r, b, x)))
            && (answer.Ok? && b.id in r.missions ==> r' == r && answer.value == r.missions[b.id])
            && (answer.Ok? && b.id !in r.missions ==> r' == Inserted(r, NewMission(b, capture)) && answer.value == NewMission(b, capture))
            && (answer.Err? ==> r' == r)
  {
    if capture.kind == CaptureKind {
      NewMissionOk(b, capture);
      if x :| Candidate(r, b, x) {
        PromoteKnown(r, b, capture, x);
      } else {
        if b.id in r.missions && r.missions[b.id].binding == b {
          BoundCandidate(r, b.id);
        }
        if IdentityOk(b) && b.id !in r.missions {
          PromoteNew(r, b, capture);
        }
      }
    }
  }

  lemma BoundCandidate(r: Repository, id: MissionId)
    requires RepositoryOk(r) && id in r.missions
    ensures Candidate(r, r.missions[id].binding, id)
    ensures forall x :: Candidate(r, r.missions[id].binding, x) ==> x == id
  {
    assert RowOk(r, KeyColumn, id) && RowOk(r, SourceColumn, id) && RowOk(r, ThreadColumn, id) && StoredOk(r, id);
  }

  lemma PromoteKnown(r: Repository, b: Binding, capture: Evidence, x: MissionId)
    requires RepositoryOk(r) && capture.kind == CaptureKind && Candidate(r, b, x)
    ensures Promote(r, b, capture).0 == r
    ensures Promote(r, b, capture).1.Ok? <==> b.id in r.missions && r.missions[b.id].binding == b
    ensures Promote(r, b, capture).1.Ok? ==> IdentityOk(b) && Promote(r, b, capture).1.value == r.missions[b.id]
  {
    assert StoredOk(r, x) && StoredOk(r, b.id);
    if b.id in r.missions && r.missions[b.id].binding == b {
      BoundCandidate(r, b.id);
    }
  }

  /** Promotion keeps the repository whatever it answers. */
  lemma PromoteOk(r: Repository, b: Binding, capture: Evidence)
    requires RepositoryOk(r)
    ensures RepositoryOk(Promote(r, b, capture).0)
  {
    PromoteExactly(r, b, capture);
    var (r', answer) := Promote(r, b, capture);
    if r' != r {
      PromoteNew(r, b, capture);
    }
  }

  lemma TransitionOk(r: Repository, id: MissionId, t: Move)
    requires RepositoryOk(r)
    ensures RepositoryOk(Transition(r, id, t).0)
    ensures Transition(r, id, t).1.Err? ==> Transition(r, id, t).0 == r
  {
    if id in r.missions && MoveMission(r.missions[id], t).Ok? {
      var r' := Transition(r, id, t).0;
      assert StoredOk(r, id);
      MoveOk(r.missions[id], t);
      forall c, k ensures EntryOk(r', c, k) {
        assert EntryOk(r, c, k);
      }
      forall c, other ensures RowOk(r', c, other) {
        assert RowOk(r, c, other);
      }
      forall other ensures StoredOk(r', other) {
        assert StoredOk(r, other);
      }
    }
  }

  datatype Event = Promotes(binding: Binding, capture: Evidence) | Moves(id: MissionId, move: Move)

  ghost function Step(r: Repository, e: Event): Repository {
    match e
    case Promotes(b, capture) => Promote(r, b, capture).0
    case Moves(id, move) => Transition(r, id, move).0
  }

  ghost function Run(r: Repository, es: seq<Event>): Repository
    decreases |es|
  {
    if es == [] then r else Step(Run(r, es[..|es| - 1]), es[|es| - 1])
  }

  lemma EmptyOk()
    ensures RepositoryOk(Empty())
  {
    forall c, k ensures EntryOk(Empty(), c, k) {
    }
  }

  predicate KeepsBinding(r: Repository, r': Repository, id: MissionId) {
    id in r.missions ==> id in r'.missions && r'.missions[id].binding == r.missions[id].binding
  }

  lemma StepOk(r: Repository, e: Event)
    requires RepositoryOk(r)
    ensures RepositoryOk(Step(r, e)) && forall id :: KeepsBinding(r, Step(r, e), id)
  {
    match e
    case Promotes(b, capture) =>
      PromoteOk(r, b, capture);
      PromoteExactly(r, b, capture);
    case Moves(id, move) => TransitionOk(r, id, move);
  }

  /** After every sequence of calls, including calls that throw: the indexes are exactly the inverses of
      the table, every mission's evidence is a path to its state, and no mission has lost its binding. */
  lemma {:induction false} RunOk(r: Repository, es: seq<Event>)
    requires RepositoryOk(r)
    ensures RepositoryOk(Run(r, es)) && forall id :: KeepsBinding(r, Run(r, es), id)
    decreases |es|
  {
    if es != [] {
      var before := Run(r, es[..|es| - 1]);
      RunOk(r, es[..|es| - 1]);
      StepOk(before, es[|es| - 1]);
      forall id ensures KeepsBinding(r, Run(r, es), id) {
        assert KeepsBinding(r, before, id) && KeepsBinding(before, Step(before, es[|es| - 1]), id);
      }
    }
  }

  /** Promoting a binding again, however much later, returns the mission as it is now and changes nothing. */
  lemma PromoteIdempotent(r: Repository, b: Binding, capture: Evidence, es: seq<Event>, again: Evidence)
    requires RepositoryOk(r) && Promote(r, b, capture).1.Ok? && again.kind == CaptureKind
    ensures var later := Run(Promote(r, b, capture).0, es);
            b.id in later.missions && Promote(later, b, again) == (later, Ok(later.missions[b.id]))
  {
    var r1 := Promote(r, b, capture).0;
    PromoteOk(r, b, capture);
    PromoteExactly(r, b, capture);
    RunOk(r1, es);
    var later := Run(r1, es);
    assert KeepsBinding(r1, later, b.id);
    BoundCandidate(later, b.id);
    PromoteKnown(later, b, again, b.id);
  }

  // ---------------------------------------------------------------- what each call does, exactly

  /** The states: each leads on to the next milestone, back to routing until work has begun, and to
      cancellation until it has ended. */
  lemma TransitionTable(s: MissionState, next: MissionState)
    ensures next == Captured || s in {Done, Cancelled} ==> next !in AllowedTransitions(s)
    ensures s !in {Done, Cancelled} ==> Cancelled in AllowedTransitions(s)
    ensures Routed in AllowedTransitions(s) <==> s in {Captured, Routed, AwaitingClaim, Claimed, ChangesRequested}
    ensures AwaitingClaim in AllowedTransitions(s) <==> s == Routed
    ensures Claimed in AllowedTransitions(s) <==> s == AwaitingClaim
    ensures InProgress in AllowedTransitions(s) <==> s in {Claimed, ChangesRequested}
    ensures Verified in AllowedTransitions(s) <==> s == InProgress
    ensures ChangesRequested in AllowedTransitions(s) <==> s in {InProgress, Verified, AwaitingLaura}
    ensures AwaitingLaura in AllowedTransitions(s) <==> s in {InProgress, Verified}
    ensures Done in AllowedTransitions(s) <==> s in {Verified, AwaitingLaura}
  {
  }

  /** The evidence of each move; routing again asks for its own kind. */
  lemma EvidenceTable(s: MissionState, next: MissionState)
    ensures RequiredEvidence(s, next) == RouteKind <==> next == Routed && s == Captured
    ensures RequiredEvidence(s, next) == RerouteKind <==> next == Routed && s != Captured
    ensures RequiredEvidence(s, next) == WakeKind <==> next == AwaitingClaim
    ensures RequiredEvidence(s, next) == ClaimKind <==> next == Claimed
    ensures RequiredEvidence(s, next) == ExecutionKind <==> next == InProgress
    ensures RequiredEvidence(s, next) == VerificationKind <==> next in {Verified, ChangesRequested, AwaitingLaura}
    ensures RequiredEvidence(s, next) == CompletionKind <==> next == Done
    ensures RequiredEvidence(s, next) == CancellationKind <==> next == Cancelled
  {
  }

  predicate Shows(m: Mission, ks: set<Kind>) { forall k :: k in ks ==> HasKind(m, k) }

  /** The evidence a record must show in each state, wherever it comes from. */
  function Demanded(s: MissionState): set<Kind> {
    {CaptureKind}
    + (if s in {Captured, Cancelled} then {} else {RouteKind})
    + (if s in {Captured, Cancelled, Routed} then {} else {WakeKind})
    + (if s in {Captured, Cancelled, Routed, AwaitingClaim} then {} else {ClaimKind})
    + (if s in {Captured, Cancelled, Routed, AwaitingClaim, Claimed} then {} else {ExecutionKind})
    + (if s in {Verified, ChangesRequested, AwaitingLaura, Done} then {VerificationKind} else {})
    + (if s == Done then {CompletionKind} else {}) + (if s == Cancelled then {CancellationKind} else {})
  }

  lemma MissingExactly(m: Mission, ks: seq<Kind>)
    ensures Missing(m, ks) == if Shows(m, set k | k in ks) then None else Some(EvidenceMissing)
  {
    if HasKinds(m, ks) {
      forall k | k in ks ensures HasKind(m, k) {
        var i :| 0 <= i < |ks| && ks[i] == k;
      }
    }
    if Shows(m, set k | k in ks) {
      forall i | 0 <= i < |ks| ensures HasKind(m, ks[i]) {
        assert ks[i] in ks;
      }
    }
  }

  /** Beyond the capture, the kinds `Validate` asks for in each state, and no others, are the demanded ones. */
  lemma DemandedBeyond(s: MissionState)
    ensures Demanded(Captured) == {CaptureKind} && Demanded(Cancelled) == {CaptureKind, CancellationKind}
    ensures Demanded(Routed) == {CaptureKind, RouteKind} && Demanded(AwaitingClaim) == {CaptureKind, RouteKind, WakeKind}
    ensures Demanded(Claimed) == {CaptureKind, RouteKind, WakeKind, ClaimKind}
    ensures Demanded(InProgress) == {CaptureKind, RouteKind, WakeKind, ClaimKind, ExecutionKind}
    ensures s in {Verified, ChangesRequested, AwaitingLaura} ==>
              Demanded(s) == {CaptureKind, RouteKind, WakeKind, ClaimKind, ExecutionKind, VerificationKind}
    ensures Demanded(Done) == {CaptureKind, RouteKind, WakeKind, ClaimKind, ExecutionKind, VerificationKind, CompletionKind}
  {
  }

  lemma ShownBeyond(m: Mission, ks: seq<Kind>)
    requires HasKind(m, CaptureKind) && Demanded(m.state) == {CaptureKind} + (set k | k in ks)
    ensures Missing(m, ks) == if Shows(m, Demanded(m.state)) then None else Some(EvidenceMissing)
  {
    MissingExactly(m, ks);
    assert Shows(m, Demanded(m.state)) <==> Shows(m, set k | k in ks);
  }

  /** What is asked of a record with its identity and its capture, state by state. */
  lemma BeyondCapture(m: Mission)
    requires IdentityOk(m.binding) && HasKind(m, CaptureKind)
    ensures Validate(m) == if NeedsOwner(m.state) && !Owned(m) then Some(OwnerMissing)
                           else if Shows(m, Demanded(m.state)) then None else Some(EvidenceMissing)
  {
    DemandedBeyond(m.state);
    match m.state
    case Captured =>
    case Routed => ShownBeyond(m, [RouteKind]);
    case AwaitingClaim => ShownBeyond(m, [RouteKind, WakeKind]);
    case Claimed => ShownBeyond(m, [RouteKind, WakeKind, ClaimKind]);
    case InProgress => ShownBeyond(m, [RouteKind, WakeKind, ClaimKind, ExecutionKind]);
    case Done => ShownBeyond(m, [RouteKind, WakeKind, ClaimKind, ExecutionKind, VerificationKind, CompletionKind]);
    case Cancelled => ShownBeyond(m, [CancellationKind]);
    case _ => ShownBeyond(m, [RouteKind, WakeKind, ClaimKind, ExecutionKind, VerificationKind]);
  }

  /** A record is valid exactly with a full identity, the evidence its state demands and, while it is being
      worked on, an owner. */
  lemma ValidateExactly(m: Mission)
    ensures Validate(m).None? <==>
              && "" !in {m.binding.id, m.binding.key, m.binding.source, m.binding.thread, m.binding.packet}
              && Shows(m, Demanded(m.state))
              && (m.state in {Routed, AwaitingClaim, Claimed, InProgress} ==> m.owner.Some? && m.owner.value != "")
    ensures Validate(m) == Some(IdentityMissing) <==>
              "" in {m.binding.id, m.binding.key, m.binding.source, m.binding.thread, m.binding.packet}
    ensures Validate(m) == Some(OwnerMissing) <==>
              IdentityOk(m.binding) && HasKind(m, CaptureKind) && m.state in {Routed, AwaitingClaim, Claimed, InProgress} && !Owned(m)
  {
    var b := m.binding;
    assert IdentityOk(b) <==> "" !in {b.id, b.key, b.source, b.thread, b.packet};
    assert CaptureKind in Demanded(m.state);
    if IdentityOk(b) && HasKind(m, CaptureKind) {
      BeyondCapture(m);
    }
  }

  /** A move that is accepted changes the state, adds its evidence, may change the owner, and sets the four
      remarks to what the move says and nothing else; a refused one changes nothing. */
  lemma TransitionExactly(r: Repository, id: MissionId, t: Move)
    ensures var (r', answer) := Transition(r, id, t);
            && (answer == Err(UnknownMission) <==> id !in r.missions)
            && (answer == Err(IllegalTransition) <==> id in r.missions && t.state !in AllowedTransitions(r.missions[id].state))
            && (answer == Err(FreshEvidenceRequired) <==>
                  && id in r.missions && t.state in AllowedTransitions(r.missions[id].state)
                  && (t.evidence.None? || t.evidence.value.kind != RequiredEvidence(r.missions[id].state, t.state)))
            && (answer.Err? ==> r' == r)
            && (answer.Ok? ==>
                  && id in r.missions && t.evidence.Some?
                  && answer.value == Mission(r.missions[id].binding, t.state,
                                             if t.owner.None? then r.missions[id].owner else t.owner,
                                             r.missions[id].evidence + [t.evidence.value],
                                             t.blocker, t.retryTrigger, t.nextAction, t.lauraNeeded == Some(true))
                  && r' == r.(missions := r.missions[id := answer.value]))
  {
  }

  lemma RunSteps(r: Repository, es: seq<Event>, e: Event)
    ensures Run(r, []) == r && Run(r, es + [e]) == Step(Run(r, es), e)
  {
    assert (es + [e])[..|es + [e]| - 1] == es;
  }

  // ---------------------------------------------------------------- the snapshot

  predicate Listed(missions: seq<Mission>, id: MissionId) { exists i :: 0 <= i < |missions| && missions[i].binding.id == id }

  predicate ListsOnce(r: Repository, missions: seq<Mission>) {
    && (forall i :: 0 <= i < |missions| ==> missions[i].binding.id in r.missions && r.missions[missions[i].binding.id] == missions[i])
    && (forall i, j :: 0 <= i < j < |missions| ==> missions[i].binding.id != missions[j].binding.id)
  }

  /** The missions in some order, each once; the source sorts them by id. */
  ghost predicate Lists(r: Repository, missions: seq<Mission>) {
    ListsOnce(r, missions) && forall id :: id in r.missions ==> Listed(missions, id)
  }

  function Without(index: map<string, MissionId>, rest: seq<Mission>): map<string, MissionId> {
    map k | k in index && !Listed(rest, index[k]) :: index[k]
  }

  /** The repository before the missions still to come were inserted. */
  function Part(r: Repository, rest: seq<Mission>): Repository {
    Repository(map id | id in r.missions && !Listed(rest, id) :: r.missions[id],
               Without(r.byKey, rest), Without(r.bySource, rest), Without(r.byThread, rest))
  }

  lemma ListedHead(rest: seq<Mission>, id: MissionId)
    requires rest != []
    ensures Listed(rest, id) <==> id == rest[0].binding.id || Listed(rest[1..], id)
  {
    if i :| 0 <= i < |rest| && rest[i].binding.id == id {
      assert i > 0 ==> rest[1..][i - 1].binding.id == id;
    }
    if i :| 0 <= i < |rest[1..]| && rest[1..][i].binding.id == id {
      assert rest[i + 1].binding.id == id;
    }
  }

  lemma HeadOnce(r: Repository, rest: seq<Mission>)
    requires ListsOnce(r, rest) && rest != []
    ensures !Listed(rest[1..], rest[0].binding.id) && ListsOnce(r, rest[1..])
  {
    forall i | 0 <= i < |rest[1..]| ensures rest[1..][i].binding.id != rest[0].binding.id {
      assert rest[1..][i] == rest[i + 1];
    }
  }

  lemma ColumnPart(r: Repository, c: Column, rest: seq<Mission>)
    requires RepositoryOk(r) && ListsOnce(r, rest) && rest != []
    ensures var k := Cell(rest[0].binding, c);
            && k !in Without(Index(r, c), rest)
            && Without(Index(r, c), rest[1..]) == Without(Index(r, c), rest)[k := rest[0].binding.id]
  {
    var id := rest[0].binding.id;
    var index := Index(r, c);
    var k := Cell(rest[0].binding, c);
    assert RowOk(r, c, id);
    ListedHead(rest, id);
    HeadOnce(r, rest);
    forall q | q in index ensures Listed(rest, index[q]) <==> index[q] == id || Listed(rest[1..], index[q]) {
      ListedHead(rest, index[q]);
    }
    forall q | q in index && index[q] == id ensures q == k {
      assert EntryOk(r, c, q);
    }
  }

  lemma InsertPart(r: Repository, rest: seq<Mission>)
    requires RepositoryOk(r) && ListsOnce(r, rest) && rest != []
    ensures Insert(Part(r, rest), rest[0]) == (Part(r, rest[1..]), None)
  {
    var id := rest[0].binding.id;
    ListedHead(rest, id);
    HeadOnce(r, rest);
    forall x | x in r.missions ensures Listed(rest, x) <==> x == id || Listed(rest[1..], x) {
      ListedHead(rest, x);
    }
    assert Part(r, rest[1..]).missions == Part(r, rest).missions[id := rest[0]];
    ColumnPart(r, KeyColumn, rest);
    ColumnPart(r, SourceColumn, rest);
    ColumnPart(r, ThreadColumn, rest);
  }

  lemma {:induction false} RebuildPart(r: Repository, rest: seq<Mission>)
    requires RepositoryOk(r) && ListsOnce(r, rest)
    ensures Rebuild(Part(r, rest), rest) == Ok(r)
    decreases |rest|
  {
    if rest == [] {
      assert Part(r, rest).missions == r.missions && Part(r, rest).byKey == r.byKey
             && Part(r, rest).bySource == r.bySource && Part(r, rest).byThread == r.byThread;
    } else {
      assert StoredOk(r, rest[0].binding.id);
      TracedValidates(rest[0]);
      InsertPart(r, rest);
      HeadOnce(r, rest);
      RebuildPart(r, rest[1..]);
    }
  }

  lemma NothingLeft(r: Repository, missions: seq<Mission>)
    requires RepositoryOk(r) && Lists(r, missions)
    ensures Part(r, missions) == Empty()
  {
    assert Part(r, missions).missions == map[];
    forall c ensures Without(Index(r, c), missions) == map[] {
      forall k | k in Index(r, c) ensures Listed(missions, Index(r, c)[k]) {
        assert EntryOk(r, c, k);
      }
    }
    assert Index(r, KeyColumn) == r.byKey && Index(r, SourceColumn) == r.bySource && Index(r, ThreadColumn) == r.byThread;
  }

  /** Rebuilding from a snapshot never throws and gives back the same missions and indexes. */
  lemma SnapshotRoundTrip(es: seq<Event>, missions: seq<Mission>)
    requires Lists(Run(Empty(), es), missions)
    ensures FromSnapshot(1, missions) == Ok(Run(Empty(), es))
  {
    EmptyOk();
    RunOk(Empty(), es);
    RebuildPart(Run(Empty(), es), missions);
    NothingLeft(Run(Empty(), es), missions);
  }

  // ---------------------------------------------------------------- which snapshots are accepted

  predicate SameCell(a: Mission, b: Mission) {
    a.binding.id == b.binding.id || a.binding.key == b.binding.key || a.binding.source == b.binding.source || a.binding.thread == b.binding.thread
  }

  /** Every record is valid and clashes with none before it. */
  ghost predicate Acceptable(r: Repository, missions: seq<Mission>) {
    && (forall i :: 0 <= i < |missions| ==> Validate(missions[i]).None? && Unused(r, missions[i].binding))
    && (forall i, j :: 0 <= i < j < |missions| ==> !SameCell(missions[i], missions[j]))
  }

  lemma AcceptableHead(r: Repository, missions: seq<Mission>)
    requires missions != [] && Validate(missions[0]).None? && Unused(r, missions[0].binding)
    ensures Acceptable(r, missions) <==> Acceptable(Inserted(r, missions[0]), missions[1..])
  {
    var r', rest := Inserted(r, missions[0]), missions[1..];
    if Acceptable(r', rest) {
      forall i | 0 <= i < |missions| ensures Validate(missions[i]).None? && Unused(r, missions[i].binding) {
        assert i > 0 ==> missions[i] == rest[i - 1];
      }
      forall i, j | 0 <= i < j < |missions| ensures !SameCell(missions[i], missions[j]) {
        assert missions[j] == rest[j - 1] && (i > 0 ==> missions[i] == rest[i - 1]);
      }
    }
  }

  lemma InsertExactly(r: Repository, m: Mission)
    ensures Insert(r, m).1.None? <==> Unused(r, m.binding)
    ensures Unused(r, m.binding) ==> Insert(r, m).0 == Inserted(r, m)
  {
  }

  lemma {:induction false} RebuildExactly(r: Repository, missions: seq<Mission>)
    ensures Rebuild(r, missions).Ok? <==> Acceptable(r, missions)
    ensures Rebuild(r, missions).Ok? ==>
              forall i :: 0 <= i < |missions| ==> Lookup(Rebuild(r, missions).value.missions, missions[i].binding.id) == Some(missions[i])
    ensures Rebuild(r, missions).Ok? ==>
              forall id :: !Listed(missions, id) ==> Lookup(Rebuild(r, missions).value.missions, id) == Lookup(r.missions, id)
    decreases |missions|
  {
    if missions != [] && Validate(missions[0]).None? {
      InsertExactly(r, missions[0]);
      if Unused(r, missions[0].binding) {
        AcceptableHead(r, missions);
        RebuildExactly(Inserted(r, missions[0]), missions[1..]);
        if Acceptable(r, missions) {
          RebuiltHead(r, missions);
        }
      }
    }
  }

  lemma RebuiltHead(r: Repository, missions: seq<Mission>)
    requires missions != [] && Acceptable(r, missions)
    ensures !Listed(missions[1..], missions[0].binding.id)
    ensures forall id :: !Listed(missions, id) ==> !Listed(missions[1..], id) && id != missions[0].binding.id
    ensures forall i :: 0 < i < |missions| ==> missions[i] == missions[1..][i - 1]
  {
    forall i | 0 <= i < |missions[1..]| ensures missions[1..][i].binding.id != missions[0].binding.id {
      assert missions[1..][i] == missions[i + 1] && !SameCell(missions[0], missions[i + 1]);
    }
    forall id | !Listed(missions, id) ensures !Listed(missions[1..], id) && id != missions[0].binding.id {
      ListedHead(missions, id);
    }
  }

  /** A snapshot is accepted exactly in its version, with valid records no two of which share an id, a key,
      a message or a thread; the repository then holds exactly these records. */
  lemma FromSnapshotExactly(version: int, missions: seq<Mission>)
    ensures FromSnapshot(version, missions).Ok? <==>
              && version == 1 && (forall i :: 0 <= i < |missions| ==> Validate(missions[i]).None?)
              && (forall i, j :: 0 <= i < j < |missions| ==> !SameCell(missions[i], missions[j]))
    ensures FromSnapshot(version, missions).Ok? ==>
              && (forall i :: 0 <= i < |missions| ==>
                    Lookup(FromSnapshot(version, missions).value.missions, missions[i].binding.id) == Some(missions[i]))
              && forall id :: id in FromSnapshot(version, missions).value.missions ==> Listed(missions, id)
    ensures FromSnapshot(version, missions) == Err(BadVersion) <==> version != 1
  {
    RebuildExactly(Empty(), missions);
    if version == 1 {
      NotBadVersion(Empty(), missions);
      assert Acceptable(Empty(), missions) <==>
             (forall i :: 0 <= i < |missions| ==> Validate(missions[i]).None?)
             && (forall i, j :: 0 <= i < j < |missions| ==> !SameCell(missions[i], missions[j]));
    }
  }

  lemma {:induction false} NotBadVersion(r: Repository, missions: seq<Mission>)
    ensures Rebuild(r, missions) != Err(BadVersion)
    decreases |missions|
  {
    if missions != [] && Validate(missions[0]).None? && Insert(r, missions[0]).1.None? {
      NotBadVersion(Insert(r, missions[0]).0, missions[1..]);
    }
  }
}
