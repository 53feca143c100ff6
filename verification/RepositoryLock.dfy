/**
 The promise-chain lock of the worktree manager and the branches created under it. Call `i` waits for
 the tail its predecessor left in the map; a released call removes its own tail if it is still the last.
 */
module RepositoryLock {
  import opened Common
  import opened Worktrees

  type Repository = string
  type CallId = nat

  /** A holder probes candidate after candidate until one is free, then adds it. */
  datatype Phase = Waiting | Probing(k: nat) | Chosen(branch: string) | Released

  datatype Call = Call(repository: Repository, previous: Option<CallId>, primary: string, suffix: string, phase: Phase)

  datatype Added = Added(repository: Repository, branch: string)

  datatype State = State(
    calls: seq<Call>, queues: map<Repository, CallId>, branches: map<Repository, set<string>>, added: seq<Added>)

  datatype Event =
    | Arrive(repository: Repository, primary: string, suffix: string)
    | Enter(call: CallId)
    | Probe(call: CallId)
    | AddWorktree(call: CallId)
    | Leave(call: CallId)
    | RemoveBranch(repository: Repository, branch: string)

  function Existing(s: State, r: Repository): set<string> { if r in s.branches then s.branches[r] else {} }

  predicate Holding(p: Phase) { p.Probing? || p.Chosen? }

  /** The tail promise of a call: its predecessor's tail has resolved and it has released. */
  predicate Resolved(s: State, i: CallId)
    decreases i
  {
    && i < |s.calls| && s.calls[i].phase == Released
    && (s.calls[i].previous.Some? ==> s.calls[i].previous.value < i && Resolved(s, s.calls[i].previous.value))
  }

  predicate MayEnter(s: State, i: CallId) {
    && i < |s.calls| && s.calls[i].phase == Waiting
    && (s.calls[i].previous.Some? ==> Resolved(s, s.calls[i].previous.value))
  }

  function InPhase(s: State, i: CallId, p: Phase): State
    requires i < |s.calls|
  {
    s.(calls := s.calls[i := s.calls[i].(phase := p)])
  }

  function Step(s: State, e: Event): State {
    match e
    case Arrive(r, primary, suffix) =>
      s.(calls := s.calls + [Call(r, Lookup(s.queues, r), primary, suffix, Waiting)],
         queues := s.queues[r := |s.calls|])
    case Enter(i) => if MayEnter(s, i) then InPhase(s, i, Probing(0)) else s
    case Probe(i) =>
      if i < |s.calls| && s.calls[i].phase.Probing? then
        var call := s.calls[i];
        var name := BranchCandidate(call.primary, call.suffix, call.phase.k);
        InPhase(s, i, if name in Existing(s, call.repository) then Probing(call.phase.k + 1) else Chosen(name))
      else s
    case AddWorktree(i) =>
      if i < |s.calls| && s.calls[i].phase.Chosen? then
        var call := s.calls[i];
        var r := call.repository;
        InPhase(s, i, Released).(
          branches := s.branches[r := Existing(s, r) + {call.phase.branch}],
          added := s.added + [Added(r, call.phase.branch)],
          queues := WithoutOwn(s.queues, r, i))
      else s
    case Leave(i) =>
      if i < |s.calls| && Holding(s.calls[i].phase)
      then InPhase(s, i, Released).(queues := WithoutOwn(s.queues, s.calls[i].repository, i))
      else s
    case RemoveBranch(r, branch) => s.(branches := s.branches[r := Existing(s, r) - {branch}])
  }

  /** The map entry goes away with the last caller, and only with the last. */
  function WithoutOwn(queues: map<Repository, CallId>, r: Repository, i: CallId): map<Repository, CallId> {
    if r in queues && queues[r] == i then queues - {r} else queues
  }

  function Run(s: State, es: seq<Event>): State
    decreases |es|
  {
    if es == [] then s else Step(Run(s, es[..|es| - 1]), es[|es| - 1])
  }

  function Initial(branches: map<Repository, set<string>>): State { State([], map[], branches, []) }

  // ---------------------------------------------------------------- the invariant

  ghost predicate AllReleasedBefore(s: State, i: CallId) {
    i < |s.calls| && forall j :: 0 <= j < i && s.calls[j].repository == s.calls[i].repository ==> s.calls[j].phase == Released
  }

  /** A call's predecessor is the previous arrival on its repository; without one, all earlier are done. */
  ghost predicate LinkOk(s: State, i: CallId)
    requires i < |s.calls|
  {
    match s.calls[i].previous
    case None => AllReleasedBefore(s, i)
    case Some(p) =>
      && p < i && s.calls[p].repository == s.calls[i].repository
      && forall j :: p < j < i ==> s.calls[j].repository != s.calls[i].repository
  }

  ghost predicate QueueOk(s: State, r: Repository) {
    match Lookup(s.queues, r)
    case None => forall j :: 0 <= j < |s.calls| && s.calls[j].repository == r ==> s.calls[j].phase == Released
    case Some(q) =>
      && q < |s.calls| && s.calls[q].repository == r
      && forall j :: q < j < |s.calls| ==> s.calls[j].repository != r
  }

  ghost predicate LockOk(s: State) {
    && (forall i :: 0 <= i < |s.calls| ==> LinkOk(s, i))
    && (forall i :: 0 <= i < |s.calls| && s.calls[i].phase != Waiting ==> AllReleasedBefore(s, i))
    && (forall i :: 0 <= i < |s.calls| && s.calls[i].phase.Chosen? ==> s.calls[i].phase.branch !in Existing(s, s.calls[i].repository))
    && (forall r :: QueueOk(s, r))
  }

  /** A resolved tail means that every earlier call on the repository has released, not only that one. */
  lemma ResolvedMeansReleased(s: State, i: CallId)
    requires LockOk(s) && Resolved(s, i)
    ensures AllReleasedBefore(s, i) && s.calls[i].phase == Released
  {
  }

  lemma EnterEarliest(s: State, i: CallId)
    requires LockOk(s) && MayEnter(s, i)
    ensures AllReleasedBefore(s, i)
  {
    assert LinkOk(s, i);
    if s.calls[i].previous.Some? {
      ResolvedMeansReleased(s, s.calls[i].previous.value);
    }
  }

  /** Changing one call's phase, when its predecessors have all released. */
  lemma PhaseOk(s: State, s': State, i: CallId)
    requires LockOk(s) && i < |s.calls| && AllReleasedBefore(s, i)
    requires |s'.calls| == |s.calls| && s'.calls == s.calls[i := s.calls[i].(phase := s'.calls[i].phase)]
    requires s'.queues == s.queues || (s'.calls[i].phase == Released && s'.queues == WithoutOwn(s.queues, s.calls[i].repository, i))
    requires s.calls[i].phase == Released ==> s'.calls[i].phase == Released
    requires s'.calls[i].phase != Waiting
    requires forall j :: 0 <= j < |s.calls| && s'.calls[j].phase.Chosen? ==> s'.calls[j].phase.branch !in Existing(s', s.calls[j].repository)
    ensures LockOk(s')
  {
    forall j | 0 <= j < |s'.calls| ensures LinkOk(s', j) {
      assert LinkOk(s, j);
    }
    forall j | 0 <= j < |s'.calls| && s'.calls[j].phase != Waiting ensures AllReleasedBefore(s', j) {
      assert j != i ==> AllReleasedBefore(s, j);
    }
    forall r ensures QueueOk(s', r) {
      assert QueueOk(s, r);
    }
  }

  /** Two calls on one repository are never both between entering and releasing. */
  lemma OneHolder(s: State, i: CallId, j: CallId)
    requires LockOk(s) && i < |s.calls| && j < |s.calls|
    requires Holding(s.calls[i].phase) && Holding(s.calls[j].phase) && s.calls[i].repository == s.calls[j].repository
    ensures i == j
  {
    assert AllReleasedBefore(s, i) && AllReleasedBefore(s, j);
  }

  lemma ArriveOk(s: State, r: Repository, primary: string, suffix: string)
    requires LockOk(s)
    ensures LockOk(Step(s, Arrive(r, primary, suffix)))
  {
    var s' := Step(s, Arrive(r, primary, suffix));
    assert QueueOk(s, r);
    forall j | 0 <= j < |s'.calls| ensures LinkOk(s', j) {
      assert j < |s.calls| ==> LinkOk(s, j);
    }
    forall j | 0 <= j < |s'.calls| && s'.calls[j].phase != Waiting ensures AllReleasedBefore(s', j) {
      assert AllReleasedBefore(s, j);
    }
    forall q ensures QueueOk(s', q) {
      assert QueueOk(s, q);
    }
  }

  lemma AddOk(s: State, i: CallId)
    requires LockOk(s)
    ensures LockOk(Step(s, AddWorktree(i)))
  {
    if i < |s.calls| && s.calls[i].phase.Chosen? {
      var s' := Step(s, AddWorktree(i));
      forall j | 0 <= j < |s.calls| && s'.calls[j].phase.Chosen?
        ensures s'.calls[j].phase.branch !in Existing(s', s.calls[j].repository)
      {
        assert AllReleasedBefore(s, i) && AllReleasedBefore(s, j);
      }
      PhaseOk(s, s', i);
    }
  }

  lemma StepOk(s: State, e: Event)
    requires LockOk(s)
    ensures LockOk(Step(s, e))
  {
    var s' := Step(s, e);
    match e
    case Arrive(r, primary, suffix) => ArriveOk(s, r, primary, suffix);
    case Enter(i) =>
      if MayEnter(s, i) {
        EnterEarliest(s, i);
        PhaseOk(s, s', i);
      }
    case Probe(i) =>
      if i < |s.calls| && s.calls[i].phase.Probing? { PhaseOk(s, s', i); }
    case AddWorktree(i) => AddOk(s, i);
    case Leave(i) =>
      if i < |s.calls| && Holding(s.calls[i].phase) { PhaseOk(s, s', i); }
    case RemoveBranch(_, _) =>
      forall j | 0 <= j < |s'.calls| ensures LinkOk(s', j) {
        assert LinkOk(s, j);
      }
      forall j | 0 <= j < |s'.calls| && s'.calls[j].phase != Waiting ensures AllReleasedBefore(s', j) {
        assert AllReleasedBefore(s, j);
      }
      forall q ensures QueueOk(s', q) {
        assert QueueOk(s, q);
      }
  }

  lemma {:induction false} RunOk(branches: map<Repository, set<string>>, es: seq<Event>)
    ensures LockOk(Run(Initial(branches), es))
    decreases |es|
  {
    if es != [] {
      RunOk(branches, es[..|es| - 1]);
      StepOk(Run(Initial(branches), es[..|es| - 1]), es[|es| - 1]);
    }
  }

  // ---------------------------------------------------------------- what callers get

  /** Mutual exclusion and first come, first served, over every run: when a call holds its repository or
      has released it, every earlier call on that repository has released, and every later one waits. */
  lemma FifoExclusion(branches: map<Repository, set<string>>, es: seq<Event>, i: CallId, j: CallId)
    requires var s := Run(Initial(branches), es);
             i < j < |s.calls| && s.calls[i].repository == s.calls[j].repository
    ensures var s := Run(Initial(branches), es);
            && (s.calls[j].phase != Waiting ==> s.calls[i].phase == Released)
            && (s.calls[i].phase != Released ==> s.calls[j].phase == Waiting)
  {
    RunOk(branches, es);
    var s := Run(Initial(branches), es);
    assert s.calls[j].phase != Waiting ==> AllReleasedBefore(s, j);
  }

  lemma {:induction false} ReleasedChainResolves(s: State, i: CallId)
    requires LockOk(s) && i < |s.calls| && s.calls[i].phase == Released
    ensures Resolved(s, i)
    decreases i
  {
    assert LinkOk(s, i) && AllReleasedBefore(s, i);
    if s.calls[i].previous.Some? {
      ReleasedChainResolves(s, s.calls[i].previous.value);
    }
  }

  /** The lock never gets stuck: a waiting call may enter exactly when every earlier one has released. */
  lemma EntersExactly(s: State, i: CallId)
    requires LockOk(s) && i < |s.calls| && s.calls[i].phase == Waiting
    ensures MayEnter(s, i) <==> AllReleasedBefore(s, i)
  {
    if MayEnter(s, i) {
      EnterEarliest(s, i);
    }
    if AllReleasedBefore(s, i) && s.calls[i].previous.Some? {
      assert LinkOk(s, i);
      ReleasedChainResolves(s, s.calls[i].previous.value);
    }
  }

  /** `git worktree add -b` never meets an existing branch, whatever ran while the name was being chosen. */
  lemma AddedBranchIsNew(branches: map<Repository, set<string>>, es: seq<Event>, i: CallId)
    requires var s := Run(Initial(branches), es); i < |s.calls| && s.calls[i].phase.Chosen?
    ensures var s := Run(Initial(branches), es); s.calls[i].phase.branch !in Existing(s, s.calls[i].repository)
  {
    RunOk(branches, es);
  }

  /** What an event does to the call it concerns; it changes no other call. */
  lemma PhasesExactly(s: State, e: Event)
    requires !e.Arrive? && !e.RemoveBranch? && e.call < |s.calls|
    ensures var s' := Step(s, e);
            var before, after := s.calls[e.call].phase, s'.calls[e.call].phase;
            && s'.calls == s.calls[e.call := s.calls[e.call].(phase := after)]
            && (e.Enter? ==> after == if MayEnter(s, e.call) then Probing(0) else before)
            && (e.Probe? && before.Probing? ==>
                  var name := BranchCandidate(s.calls[e.call].primary, s.calls[e.call].suffix, before.k);
                  after == if name in Existing(s, s.calls[e.call].repository) then Probing(before.k + 1) else Chosen(name))
            && (e.Probe? && !before.Probing? ==> after == before)
            && (e.AddWorktree? ==> after == if before.Chosen? then Released else before)
            && (e.Leave? ==> after == if before.Probing? || before.Chosen? then Released else before)
  {
  }

  lemma ArriveExactly(s: State, r: Repository, primary: string, suffix: string)
    ensures var s' := Step(s, Arrive(r, primary, suffix));
            && |s'.calls| == |s.calls| + 1 && s'.calls[..|s.calls|] == s.calls
            && s'.calls[|s.calls|].repository == r && s'.calls[|s.calls|].primary == primary && s'.calls[|s.calls|].suffix == suffix
            && s'.calls[|s.calls|].phase == Waiting && s'.branches == s.branches
  {
  }

  /** An entry of the map is the last call on its repository, and that call has not released. */
  ghost predicate EntryOk(s: State, r: Repository) {
    r in s.queues ==>
      && s.queues[r] < |s.calls| && s.calls[s.queues[r]].repository == r && s.calls[s.queues[r]].phase != Released
      && forall j :: s.queues[r] < j < |s.calls| ==> s.calls[j].repository != r
  }

  lemma EntryKept(s: State, e: Event, r: Repository)
    requires EntryOk(s, r)
    ensures EntryOk(Step(s, e), r)
  {
  }

  /** The map keeps nothing of a repository that nobody holds or waits for, over every run. */
  lemma {:induction false} NothingLeft(branches: map<Repository, set<string>>, es: seq<Event>, r: Repository)
    ensures EntryOk(Run(Initial(branches), es), r)
    ensures var s := Run(Initial(branches), es);
            r in s.queues <==> exists i :: 0 <= i < |s.calls| && s.calls[i].repository == r && s.calls[i].phase != Released
    decreases |es|
  {
    if es != [] {
      NothingLeft(branches, es[..|es| - 1], r);
      EntryKept(Run(Initial(branches), es[..|es| - 1]), es[|es| - 1], r);
    }
    RunOk(branches, es);
    assert QueueOk(Run(Initial(branches), es), r);
  }

  lemma RunSteps(s: State, es: seq<Event>, e: Event)
    ensures Run(s, []) == s && Run(s, es + [e]) == Step(Run(s, es), e)
  {
    assert (es + [e])[..|es + [e]| - 1] == es;
  }

  /** Only adding a worktree adds a branch, the one chosen, and only a removal removes one. */
  lemma BranchesExactly(s: State, e: Event, r: Repository)
    ensures Existing(Step(s, e), r) ==
              match e
              case AddWorktree(i) =>
                if i < |s.calls| && s.calls[i].phase.Chosen? && s.calls[i].repository == r
                then Existing(s, r) + {s.calls[i].phase.branch} else Existing(s, r)
              case RemoveBranch(q, branch) => if q == r then Existing(s, r) - {branch} else Existing(s, r)
              case _ => Existing(s, r)
    ensures Step(s, e).added == if e.AddWorktree? && e.call < |s.calls| && s.calls[e.call].phase.Chosen?
                                then s.added + [Added(s.calls[e.call].repository, s.calls[e.call].phase.branch)] else s.added
  {
  }

  /** What a call has found out: every candidate before the one it is at was taken, and the name it chose
      is the first that was free. */
  ghost predicate SearchOk(s: State, i: CallId)
    requires i < |s.calls|
  {
    var call := s.calls[i];
    var candidate := BranchCandidates(call.primary, call.suffix);
    match call.phase
    case Probing(k) => forall j: nat :: j < k ==> candidate(j) in Existing(s, call.repository)
    case Chosen(branch) =>
      exists k: nat :: candidate(k) == branch && forall j: nat :: j < k ==> candidate(j) in Existing(s, call.repository)
    case _ => true
  }

  lemma SearchStep(s: State, e: Event, i: CallId)
    requires !e.RemoveBranch? && i < |s.calls| && SearchOk(s, i)
    ensures i < |Step(s, e).calls| && SearchOk(Step(s, e), i)
  {
    BranchesExactly(s, e, s.calls[i].repository);
    var s' := Step(s, e);
    if s'.calls[i].phase.Chosen? {
      var candidate := BranchCandidates(s.calls[i].primary, s.calls[i].suffix);
      if s.calls[i].phase.Probing? {
        assert candidate(s.calls[i].phase.k) == s'.calls[i].phase.branch;
      }
    }
  }

  /** Unless branches are removed, over every run the name a call chooses is the first candidate of its own
      names that is free in its repository. */
  lemma {:induction false} ChosenIsFirstFree(branches: map<Repository, set<string>>, es: seq<Event>, i: CallId)
    requires forall e :: e in es ==> !e.RemoveBranch?
    requires i < |Run(Initial(branches), es).calls|
    ensures SearchOk(Run(Initial(branches), es), i)
    ensures var s := Run(Initial(branches), es);
            s.calls[i].phase.Chosen? ==>
              FirstFree(BranchCandidates(s.calls[i].primary, s.calls[i].suffix), Existing(s, s.calls[i].repository), s.calls[i].phase.branch)
    decreases |es|
  {
    RunOk(branches, es);
    if es != [] {
      var s := Run(Initial(branches), es[..|es| - 1]);
      if i < |s.calls| {
        ChosenIsFirstFree(branches, es[..|es| - 1], i);
        SearchStep(s, es[|es| - 1], i);
      }
    }
  }

  ghost predicate AddedOk(s: State) {
    && (forall a :: a in s.added ==> a.branch in Existing(s, a.repository))
    && (forall i, j :: 0 <= i < j < |s.added| ==> s.added[i] != s.added[j])
  }

  /** Unless branches are removed, no two calls ever create the same branch in one repository. */
  lemma {:induction false} CreatedDistinct(branches: map<Repository, set<string>>, es: seq<Event>)
    requires forall e :: e in es ==> !e.RemoveBranch?
    ensures AddedOk(Run(Initial(branches), es))
    decreases |es|
  {
    if es != [] {
      var s := Run(Initial(branches), es[..|es| - 1]);
      var e := es[|es| - 1];
      CreatedDistinct(branches, es[..|es| - 1]);
      RunOk(branches, es[..|es| - 1]);
      var s' := Step(s, e);
      if s'.added != s.added {
        var a := s'.added[|s.added|];
        assert a.branch !in Existing(s, a.repository);
        forall i | 0 <= i < |s.added| ensures s'.added[i] != a {
          assert s.added[i] in s.added;
        }
      }
      forall b | b in s'.added ensures b.branch in Existing(s', b.repository) {
        assert b in s.added || b == s'.added[|s.added|];
      }
    }
  }

  /** Probing ends: while the branches of the repository stay as they are, the number of candidates found
      taken never exceeds the number of branches, and the name chosen is the first free candidate. */
  lemma ProbeBound(taken: set<string>, primary: string, suffix: string, k: nat)
    requires forall j: nat :: j < k ==> BranchCandidates(primary, suffix)(j) in taken
    ensures k <= |taken|
    ensures BranchCandidate(primary, suffix, k) !in taken ==>
              FirstFree(BranchCandidates(primary, suffix), taken, BranchCandidate(primary, suffix, k))
  {
    CandidatesBelow(taken, primary, suffix, k);
    assert BranchCandidates(primary, suffix)(k) == BranchCandidate(primary, suffix, k);
  }

  // ---------------------------------------------------------------- the lock's own code

  /** The map of queue tails and the calls waiting on them. */
  class WorktreeLock {
    var calls: seq<Call>
    var queues: map<Repository, CallId>
    var branches: map<Repository, set<string>>
    ghost var added: seq<Added>

    ghost function View(): State
      reads this
    {
      State(calls, queues, branches, added)
    }

    constructor (branches: map<Repository, set<string>>)
      ensures View() == Initial(branches)
    {
      calls, queues, this.branches, added := [], map[], branches, [];
    }

    method Queue(r: Repository, primary: string, suffix: string) returns (call: CallId)
      modifies this
      ensures View() == Step(old(View()), Arrive(r, primary, suffix)) && call == old(|calls|)
    {
      call := |calls|;
      var previous := if r in queues then Some(queues[r]) else None;
      calls := calls + [Call(r, previous, primary, suffix, Waiting)];
      queues := queues[r := call];
    }

    /** Walks the chain of tails a waiting call depends on. */
    method TailResolved(last: Option<CallId>) returns (resolved: bool)
      requires last.Some? ==> last.value < |calls|
      requires forall i :: 0 <= i < |calls| && calls[i].previous.Some? ==> calls[i].previous.value < i
      ensures resolved <==> (last.Some? ==> Resolved(View(), last.value))
    {
      var at: Option<CallId> := last;
      while at.Some?
        invariant at.Some? ==> at.value < |calls|
        invariant (last.Some? ==> Resolved(View(), last.value)) <==> (at.Some? ==> Resolved(View(), at.value))
        decreases if at.Some? then at.value + 1 else 0
      {
        if calls[at.value].phase != Released {
          return false;
        }
        at := calls[at.value].previous;
      }
      return true;
    }

    method TryEnter(call: CallId) returns (entered: bool)
      requires call < |calls| && LockOk(View())
      modifies this`calls
      ensures View() == Step(old(View()), Enter(call))
      ensures entered <==> MayEnter(old(View()), call)
    {
      forall i | 0 <= i < |calls| && calls[i].previous.Some? ensures calls[i].previous.value < i {
        assert LinkOk(View(), i);
      }
      var resolved := TailResolved(calls[call].previous);
      entered := resolved && calls[call].phase == Waiting;
      if entered {
        calls := calls[call := calls[call].(phase := Probing(0))];
      }
    }

    /** The `finally` clause: release, and drop the map entry if nobody queued behind. */
    method Release(call: CallId)
      requires call < |calls| && Holding(calls[call].phase)
      modifies this`calls, this`queues
      ensures View() == Step(old(View()), Leave(call))
    {
      var r := calls[call].repository;
      calls := calls[call := calls[call].(phase := Released)];
      if r in queues && queues[r] == call {
        queues := queues - {r};
      }
    }

    /** The branch part of `create` by a holder that nobody else's deletions disturb. */
    method CreateBranch(call: CallId) returns (branch: string)
      requires call < |calls| && calls[call].phase == Probing(0)
      modifies this
      ensures FirstFree(BranchCandidates(old(calls[call].primary), old(calls[call].suffix)),
                        Existing(old(View()), old(calls[call].repository)), branch)
      ensures View() == Step(InPhase(old(View()), call, Chosen(branch)), AddWorktree(call))
    {
      var r := calls[call].repository;
      var taken := if r in branches then branches[r] else {};
      branch := PickBranch(taken, calls[call].primary, calls[call].suffix);
      branches := branches[r := taken + {branch}];
      added := added + [Added(r, branch)];
      calls := calls[call := calls[call].(phase := Chosen(branch))];
      Release(call);
    }
  }
}
