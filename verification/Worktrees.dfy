/** Choosing a branch and a directory for a new worktree: the first free name of an endless list of candidates. */
module Worktrees {
  import Decimal

  /** `primary`, then `primary-suffix`, then `primary-suffix-2`, `primary-suffix-3`, and so on. */
  function BranchCandidate(primary: string, suffix: string, k: nat): string {
    if k == 0 then primary
    else if k == 1 then primary + "-" + suffix
    else primary + "-" + suffix + "-" + Decimal.ToDecimal(k)
  }

  function DirectoryName(branch: string): (d: string)
    ensures '/' !in d
  {
    if branch == [] then []
    else (if branch[0] == '/' then "--" else [branch[0]]) + DirectoryName(branch[1..])
  }

  function Join(base: string, name: string): string { base + "/" + name }

  /** `directory`, then `directory-2`, `directory-3`, and so on. */
  function PathCandidate(base: string, directory: string, k: nat): string {
    if k == 0 then Join(base, directory) else Join(base, directory + "-" + Decimal.ToDecimal(k + 1))
  }

  function BranchCandidates(primary: string, suffix: string): nat -> string {
    (k: nat) => BranchCandidate(primary, suffix, k)
  }

  function PathCandidates(base: string, directory: string): nat -> string {
    (k: nat) => PathCandidate(base, directory, k)
  }

  lemma BranchCandidatesDistinct(primary: string, suffix: string, j: nat, k: nat)
    requires BranchCandidate(primary, suffix, j) == BranchCandidate(primary, suffix, k)
    ensures j == k
  {
    var dashed := primary + "-" + suffix + "-";
    if j >= 2 && k >= 2 {
      assert Decimal.ToDecimal(j) == (dashed + Decimal.ToDecimal(j))[|dashed|..];
      assert Decimal.ToDecimal(k) == (dashed + Decimal.ToDecimal(k))[|dashed|..];
      Decimal.Injective(j, k);
    }
  }

  /** What the candidates are called: the name itself, then with the task's suffix, then numbered from two. */
  lemma BranchNames(primary: string, suffix: string, k: nat)
    ensures BranchCandidate(primary, suffix, 0) == primary
    ensures BranchCandidate(primary, suffix, 1) == primary + "-" + suffix
    ensures k >= 2 ==>
              var start := primary + "-" + suffix + "-";
              start <= BranchCandidate(primary, suffix, k) && Decimal.FromDecimal(BranchCandidate(primary, suffix, k)[|start|..]) == k
  {
    if k >= 2 {
      var start := primary + "-" + suffix + "-";
      assert (start + Decimal.ToDecimal(k))[|start|..] == Decimal.ToDecimal(k);
      Decimal.RoundTrip(k);
    }
  }

  /** A directory is a direct child of the base, numbered from two if its own name is taken. */
  lemma PathNames(base: string, directory: string, k: nat)
    ensures PathCandidate(base, directory, 0) == base + "/" + directory
    ensures k >= 1 ==>
              var start := base + "/" + directory + "-";
              start <= PathCandidate(base, directory, k) && Decimal.FromDecimal(PathCandidate(base, directory, k)[|start|..]) == k + 1
  {
    if k >= 1 {
      var start := base + "/" + directory + "-";
      assert PathCandidate(base, directory, k) == start + Decimal.ToDecimal(k + 1);
      assert (start + Decimal.ToDecimal(k + 1))[|start|..] == Decimal.ToDecimal(k + 1);
      Decimal.RoundTrip(k + 1);
    }
  }

  /** Each slash of a branch name becomes two dashes, and nothing else changes. */
  lemma {:induction false} DirectoryNames(a: string, b: string)
    ensures DirectoryName("/") == "--" && DirectoryName(a + b) == DirectoryName(a) + DirectoryName(b)
    ensures '/' !in a ==> DirectoryName(a) == a
    decreases |a|
  {
    assert DirectoryName("/") == "--" + DirectoryName("/"[1..]);
    if a == [] {
      assert a + b == b;
    } else {
      assert (a + b)[1..] == a[1..] + b && a == [a[0]] + a[1..];
      DirectoryNames(a[1..], b);
    }
  }

  lemma NumberedPathLonger(base: string, directory: string, k: nat)
    requires k >= 1
    ensures |PathCandidate(base, directory, k)| > |PathCandidate(base, directory, 0)|
  {
  }

  lemma PathCandidatesDistinct(base: string, directory: string, j: nat, k: nat)
    requires PathCandidate(base, directory, j) == PathCandidate(base, directory, k)
    ensures j == k
  {
    var dashed := base + "/" + directory + "-";
    if j == 0 && k == 0 {
    } else if j == 0 {
      NumberedPathLonger(base, directory, k);
    } else if k == 0 {
      NumberedPathLonger(base, directory, j);
    } else {
      assert PathCandidate(base, directory, j) == dashed + Decimal.ToDecimal(j + 1);
      assert PathCandidate(base, directory, k) == dashed + Decimal.ToDecimal(k + 1);
      assert Decimal.ToDecimal(j + 1) == (dashed + Decimal.ToDecimal(j + 1))[|dashed|..];
      assert Decimal.ToDecimal(k + 1) == (dashed + Decimal.ToDecimal(k + 1))[|dashed|..];
      Decimal.Injective(j + 1, k + 1);
    }
  }

  /** Finitely many names are taken and the candidates are distinct, so the first `k` can only all be
      taken while `k` does not exceed their number. */
  lemma {:induction false} TakenBound(candidate: nat -> string, k: nat, taken: set<string>)
    requires forall j: nat :: j < k ==> candidate(j) in taken
    requires forall i: nat, j: nat :: i < j < k ==> candidate(i) != candidate(j)
    ensures k <= |taken|
    decreases k
  {
    if k > 0 {
      var last := candidate(k - 1);
      TakenBound(candidate, k - 1, taken - {last});
    }
  }

  /** `name` is the first candidate that is not taken. */
  ghost predicate FirstFree(candidate: nat -> string, taken: set<string>, name: string) {
    && name !in taken
    && exists k: nat :: candidate(k) == name && forall j: nat :: j < k ==> candidate(j) in taken
  }

  method PickBranch(taken: set<string>, primary: string, suffix: string) returns (branch: string)
    ensures FirstFree(BranchCandidates(primary, suffix), taken, branch)
  {
    ghost var candidate := BranchCandidates(primary, suffix);
    branch := primary;
    if branch in taken {
      branch := primary + "-" + suffix;
      var collision := 2;
      while branch in taken
        invariant collision >= 2
        invariant branch == candidate(collision - 1)
        invariant forall j: nat :: j < collision - 1 ==> candidate(j) in taken
        decreases |taken| + 1 - collision
      {
        CandidatesBelow(taken, primary, suffix, collision);
        branch := primary + "-" + suffix + "-" + Decimal.ToDecimal(collision);
        collision := collision + 1;
      }
      assert candidate(collision - 1) == branch;
    } else {
      assert candidate(0) == branch;
    }
  }

  lemma CandidatesBelow(taken: set<string>, primary: string, suffix: string, k: nat)
    requires forall j: nat :: j < k ==> BranchCandidates(primary, suffix)(j) in taken
    ensures k <= |taken|
  {
    var candidate := BranchCandidates(primary, suffix);
    forall i: nat, j: nat | i < j < k ensures candidate(i) != candidate(j) {
      if candidate(i) == candidate(j) {
        BranchCandidatesDistinct(primary, suffix, i, j);
      }
    }
    TakenBound(candidate, k, taken);
  }

  lemma PathsBelow(taken: set<string>, base: string, directory: string, k: nat)
    requires forall j: nat :: j < k ==> PathCandidates(base, directory)(j) in taken
    ensures k <= |taken|
  {
    var candidate := PathCandidates(base, directory);
    forall i: nat, j: nat | i < j < k ensures candidate(i) != candidate(j) {
      if candidate(i) == candidate(j) {
        PathCandidatesDistinct(base, directory, i, j);
      }
    }
    TakenBound(candidate, k, taken);
  }

  /** The directory chosen is the first free one, directly below the base directory. */
  method PickPath(taken: set<string>, base: string, branch: string) returns (path: string)
    ensures FirstFree(PathCandidates(base, DirectoryName(branch)), taken, path)
    ensures exists name :: path == Join(base, name) && '/' !in name
  {
    ghost var candidate := PathCandidates(base, DirectoryName(branch));
    var name := DirectoryName(branch);
    path := Join(base, name);
    var collision := 2;
    while path in taken
      invariant collision >= 2
      invariant path == Join(base, name) && '/' !in name
      invariant path == candidate(collision - 2)
      invariant forall j: nat :: j < collision - 2 ==> candidate(j) in taken
      decreases |taken| + 2 - collision
    {
      PathsBelow(taken, base, DirectoryName(branch), collision - 1);
      name := DirectoryName(branch) + "-" + Decimal.ToDecimal(collision);
      path := Join(base, name);
      collision := collision + 1;
    }
    assert candidate(collision - 2) == path;
  }
}
