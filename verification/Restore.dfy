/**
 The crash-safe swap of a SQLite database generation (main file, `-wal`, `-shm`).

 A disk is a map from path to file. Every `rm` and `rename` is one atomic operation; a crash can fall
 between any two of them, and any call can also fail with an I/O error. The value-level part below
 gives, for each routine, the list of disk operations it issues from a given disk; a crash leaves a
 prefix of that list applied. The imperative part issues the calls one by one, in the source's order,
 and is proved to follow those lists.
 */
module Restore {
  import opened Common

  type Path = string

  /** A file with what the schema and integrity check can see of it. */
  datatype File = File(content: nat, intact: bool, schemaVersion: int)

  type Disk = map<Path, File>

  /** The three base paths of one restore. */
  datatype Names = Names(staging: Path, active: Path, rollback: Path)

  /** A main database file with whichever sidecars belong to it. */
  datatype Generation = Generation(main: File, wal: Option<File>, shm: Option<File>)

  datatype Op = Remove(path: Path) | Rename(from: Path, to: Path)

  datatype Recovery = ActivePresent | RollbackRestored | NoDatabase

  datatype Error =
    | InvalidSchemaVersion
    | NotConfirmed
    | OverlappingPaths
    | StagedSidecars
    | InvalidDatabase
    | AmbiguousSidecar
    | OrphanedSidecars
    | DestinationExists
    | MissingSource
    | IoFault

  function Wal(p: Path): Path { p + "-wal" }

  function Shm(p: Path): Path { p + "-shm" }

  function GenerationPaths(p: Path): seq<Path> { [p, Wal(p), Shm(p)] }

  predicate AllDistinct(ps: seq<Path>) {
    forall i, j :: 0 <= i < j < |ps| ==> ps[i] != ps[j]
  }

  predicate DistinctPair(active: Path, rollback: Path) {
    AllDistinct(GenerationPaths(active) + GenerationPaths(rollback))
  }

  predicate DistinctNames(n: Names) {
    AllDistinct(GenerationPaths(n.staging) + GenerationPaths(n.active) + GenerationPaths(n.rollback))
  }

  predicate ValidFile(f: File, expected: int) { f.intact && f.schemaVersion == expected }

  // ---------------------------------------------------------------- operations and their replay

  function Apply(d: Disk, op: Op): Disk {
    match op
    case Remove(p) => d - {p}
    case Rename(from, to) => if from in d then (d - {from})[to := d[from]] else d
  }

  function Replay(d: Disk, ops: seq<Op>): Disk
    decreases ops
  {
    if ops == [] then d else Replay(Apply(d, ops[0]), ops[1..])
  }

  lemma {:induction false} ReplayAppend(d: Disk, xs: seq<Op>, ys: seq<Op>)
    ensures Replay(d, xs + ys) == Replay(Replay(d, xs), ys)
    decreases xs
  {
    if xs == [] {
      assert xs + ys == ys;
    } else {
      assert (xs + ys)[0] == xs[0] && (xs + ys)[1..] == xs[1..] + ys;
      ReplayAppend(Apply(d, xs[0]), xs[1..], ys);
    }
  }

  lemma ReplayOne(d: Disk, op: Op)
    ensures Replay(d, [op]) == Apply(d, op)
  {
    assert [op][1..] == [];
  }

  // ---------------------------------------------------------------- recovery as an operation list

  predicate Ambiguous(d: Disk, from: Path, to: Path) { from in d && to in d }

  /** What a sidecar loop does for one suffix when it does not throw. */
  function SidecarOps(d: Disk, from: Path, to: Path): seq<Op> {
    if from in d && to !in d then [Rename(from, to)] else []
  }

  function SidecarsOps(d: Disk, source: Path, dest: Path): seq<Op> {
    if Ambiguous(d, Wal(source), Wal(dest)) then []
    else
      var first := SidecarOps(d, Wal(source), Wal(dest));
      var d' := Replay(d, first);
      if Ambiguous(d', Shm(source), Shm(dest)) then first
      else first + SidecarOps(d', Shm(source), Shm(dest))
  }

  predicate SidecarsThrow(d: Disk, source: Path, dest: Path) {
    || Ambiguous(d, Wal(source), Wal(dest))
    || Ambiguous(Replay(d, SidecarOps(d, Wal(source), Wal(dest))), Shm(source), Shm(dest))
  }

  predicate HasSidecars(d: Disk, p: Path) { Wal(p) in d || Shm(p) in d }

  function RecoverOutcome(d: Disk, active: Path, rollback: Path): Result<Recovery, Error> {
    if !DistinctPair(active, rollback) then Err(OverlappingPaths)
    else if active in d && rollback in d then Ok(ActivePresent)
    else if active in d then
      if SidecarsThrow(d, rollback, active) then Err(AmbiguousSidecar) else Ok(ActivePresent)
    else if rollback !in d then
      if HasSidecars(d, active) || HasSidecars(d, rollback) then Err(OrphanedSidecars) else Ok(NoDatabase)
    else if SidecarsThrow(d, rollback, active) then Err(AmbiguousSidecar)
    else Ok(RollbackRestored)
  }

  function RecoverOps(d: Disk, active: Path, rollback: Path): seq<Op> {
    if !DistinctPair(active, rollback) then []
    else if active in d && rollback in d then []
    else if active in d then SidecarsOps(d, rollback, active)
    else if rollback !in d then []
    else if SidecarsThrow(d, rollback, active) then SidecarsOps(d, rollback, active)
    else SidecarsOps(d, rollback, active) + [Rename(rollback, active)]
  }

  function Recovered(d: Disk, active: Path, rollback: Path): Disk {
    Replay(d, RecoverOps(d, active, rollback))
  }

  /** The disk left when recovery crashes after at most `cut` operations. */
  function CutRecovery(d: Disk, active: Path, rollback: Path, cut: nat): Disk {
    var ops := RecoverOps(d, active, rollback);
    Replay(d, if cut < |ops| then ops[..cut] else ops)
  }

  /** The disk left by a series of crashed recovery attempts. */
  function CrashedRecoveries(d: Disk, active: Path, rollback: Path, cuts: seq<nat>): Disk
    decreases cuts
  {
    if cuts == [] then d
    else CrashedRecoveries(CutRecovery(d, active, rollback, cuts[0]), active, rollback, cuts[1..])
  }

  // ---------------------------------------------------------------- activation as an operation list

  function RemoveOps(p: Path): seq<Op> { [Remove(p), Remove(Wal(p)), Remove(Shm(p))] }

  function MoveGenerationOps(d: Disk, source: Path, dest: Path): seq<Op> {
    [Rename(source, dest)] + SidecarsOps(Apply(d, Rename(source, dest)), source, dest)
  }

  /** The checks activation makes before it touches the disk. */
  function Precheck(d: Disk, n: Names, expected: int, authorised: bool): Option<Error> {
    if expected < 0 then Some(InvalidSchemaVersion)
    else if !authorised then Some(NotConfirmed)
    else if !DistinctNames(n) then Some(OverlappingPaths)
    else if HasSidecars(d, n.staging) then Some(StagedSidecars)
    else if n.staging !in d || !ValidFile(d[n.staging], expected) then Some(InvalidDatabase)
    else None
  }

  function SwapOps(d: Disk, n: Names): seq<Op> {
    if n.active in d then
      RemoveOps(n.rollback)
      + MoveGenerationOps(Replay(d, RemoveOps(n.rollback)), n.active, n.rollback)
      + [Rename(n.staging, n.active)]
    else [Rename(n.staging, n.active)]
  }

  /** Every operation of an activation in which no call fails. */
  function ActivateOps(d: Disk, n: Names, expected: int, authorised: bool): seq<Op> {
    if Precheck(d, n, expected, authorised).Some? then []
    else
      var recovery := RecoverOps(d, n.active, n.rollback);
      if RecoverOutcome(d, n.active, n.rollback).Err? then recovery
      else recovery + SwapOps(Replay(d, recovery), n)
  }

  // ---------------------------------------------------------------- what a crash may leave behind

  ghost predicate Holds(d: Disk, p: Path, g: Generation) {
    && Lookup(d, p) == Some(g.main)
    && Lookup(d, Wal(p)) == g.wal
    && Lookup(d, Shm(p)) == g.shm
  }

  /** The old generation is in place, and no rollback sidecar could be taken for one of its own. */
  ghost predicate Before(d: Disk, n: Names, g: Generation) {
    && Holds(d, n.active, g)
    && (Wal(n.rollback) in d ==> g.wal.Some?)
    && (Shm(n.rollback) in d ==> g.shm.Some?)
  }

  /** Exactly one of the two paths holds the file, when there is one. */
  ghost predicate InOnePlace(d: Disk, p: Path, q: Path, f: Option<File>) {
    || (Lookup(d, p) == f && Lookup(d, q) == None)
    || (Lookup(d, p) == None && Lookup(d, q) == f)
  }

  /** No active main file; the old main file is at rollback and each of its sidecars is in one place. */
  ghost predicate During(d: Disk, n: Names, g: Generation) {
    && n.active !in d
    && Lookup(d, n.rollback) == Some(g.main)
    && InOnePlace(d, Wal(n.active), Wal(n.rollback), g.wal)
    && InOnePlace(d, Shm(n.active), Shm(n.rollback), g.shm)
  }

  /** Exactly the new file is active, and the whole old generation is at rollback. */
  ghost predicate After(d: Disk, n: Names, g: Generation, f: File) {
    && Holds(d, n.active, Generation(f, None, None))
    && Holds(d, n.rollback, g)
  }

  ghost predicate Safe(d: Disk, n: Names, g: Generation, f: File) {
    Before(d, n, g) || During(d, n, g) || After(d, n, g, f)
  }

  /** Never a mix and never nothing: what must hold of every disk a crash can leave. */
  ghost predicate Sound(d: Disk, n: Names, g: Generation, f: File) {
    Holds(d, n.active, g) || During(d, n, g) || After(d, n, g, f)
  }

  /** `Safe` holds before the first operation and after each one. */
  ghost predicate SafeAlong(d: Disk, ops: seq<Op>, n: Names, g: Generation, f: File)
    decreases ops
  {
    && Safe(d, n, g, f)
    && (ops != [] ==> SafeAlong(Apply(d, ops[0]), ops[1..], n, g, f))
  }

  lemma {:induction false} SafeAlongAppend(d: Disk, xs: seq<Op>, ys: seq<Op>, n: Names, g: Generation, f: File)
    requires SafeAlong(d, xs, n, g, f)
    requires SafeAlong(Replay(d, xs), ys, n, g, f)
    ensures SafeAlong(d, xs + ys, n, g, f)
    decreases xs
  {
    if xs == [] {
      assert xs + ys == ys;
    } else {
      assert (xs + ys)[0] == xs[0] && (xs + ys)[1..] == xs[1..] + ys;
      SafeAlongAppend(Apply(d, xs[0]), xs[1..], ys, n, g, f);
    }
  }

  /** A crash after any prefix of a safe operation list leaves a safe disk. */
  lemma {:induction false} SafeAtEveryPrefix(d: Disk, ops: seq<Op>, k: nat, n: Names, g: Generation, f: File)
    requires SafeAlong(d, ops, n, g, f) && k <= |ops|
    ensures Safe(Replay(d, ops[..k]), n, g, f)
    ensures SafeAlong(d, ops[..k], n, g, f)
    decreases ops
  {
    if k > 0 {
      assert ops[..k][0] == ops[0] && ops[..k][1..] == ops[1..][..k-1];
      SafeAtEveryPrefix(Apply(d, ops[0]), ops[1..], k - 1, n, g, f);
    } else {
      assert ops[..k] == [];
    }
  }

  lemma DistinctPairUnfold(a: Path, r: Path)
    requires DistinctPair(a, r)
    ensures a != r && a != Wal(a) && a != Shm(a) && Wal(a) != Shm(a)
    ensures r != Wal(r) && r != Shm(r) && Wal(r) != Shm(r)
    ensures a != Wal(r) && a != Shm(r) && r != Wal(a) && r != Shm(a)
    ensures Wal(a) != Wal(r) && Shm(a) != Shm(r) && Wal(a) != Shm(r) && Shm(a) != Wal(r)
  {
    var all := GenerationPaths(a) + GenerationPaths(r);
    assert all[0] == a && all[1] == Wal(a) && all[2] == Shm(a) && all[3] == r && all[4] == Wal(r) && all[5] == Shm(r);
  }

  lemma DistinctNamesUnfold(n: Names)
    requires DistinctNames(n)
    ensures DistinctPair(n.active, n.rollback)
    ensures n.staging !in {n.active, Wal(n.active), Shm(n.active), n.rollback, Wal(n.rollback), Shm(n.rollback)}
  {
    var all := GenerationPaths(n.staging) + GenerationPaths(n.active) + GenerationPaths(n.rollback);
    var two := GenerationPaths(n.active) + GenerationPaths(n.rollback);
    assert all == GenerationPaths(n.staging) + two;
    assert forall i :: 0 <= i < |two| ==> two[i] == all[i + 3];
    forall i | 0 <= i < |two| ensures two[i] != n.staging {
      assert all[i + 3] != all[0];
    }
    assert two[0] == n.active && two[1] == Wal(n.active) && two[2] == Shm(n.active);
    assert two[3] == n.rollback && two[4] == Wal(n.rollback) && two[5] == Shm(n.rollback);
  }

  // ---------------------------------------------------------------- recovery

  lemma SafeOne(d: Disk, op: Op, n: Names, g: Generation, f: File)
    requires Safe(d, n, g, f) && Safe(Apply(d, op), n, g, f)
    ensures SafeAlong(d, [op], n, g, f)
  {
    assert [op][1..] == [];
    assert SafeAlong(Apply(d, op), [], n, g, f);
  }

  /** One sidecar moved between the two places keeps the `During` disk, in either direction. */
  lemma DuringOneSidecar(d: Disk, n: Names, g: Generation, f: File, wal: bool, back: bool)
    requires DistinctNames(n) && During(d, n, g)
    ensures var source := if back then n.rollback else n.active;
            var dest := if back then n.active else n.rollback;
            var from := if wal then Wal(source) else Shm(source);
            var to := if wal then Wal(dest) else Shm(dest);
            var d' := Replay(d, SidecarOps(d, from, to));
            && !Ambiguous(d, from, to)
            && SafeAlong(d, SidecarOps(d, from, to), n, g, f)
            && During(d', n, g) && from !in d'
            && forall p :: p != from && p != to ==> Lookup(d', p) == Lookup(d, p)
  {
    DistinctNamesUnfold(n);
    DistinctPairUnfold(n.active, n.rollback);
    var source := if back then n.rollback else n.active;
    var dest := if back then n.active else n.rollback;
    var from := if wal then Wal(source) else Shm(source);
    var to := if wal then Wal(dest) else Shm(dest);
    if from in d {
      var op := Rename(from, to);
      assert SidecarOps(d, from, to) == [op];
      ReplayOne(d, op);
      SafeOne(d, op, n, g, f);
    }
  }

  /** Both sidecar moves: no ambiguity, safe after each one, and the source ends with no sidecar. */
  lemma DuringSidecars(d: Disk, n: Names, g: Generation, f: File, back: bool)
    requires DistinctNames(n) && During(d, n, g)
    ensures var source := if back then n.rollback else n.active;
            var dest := if back then n.active else n.rollback;
            var d' := Replay(d, SidecarsOps(d, source, dest));
            && !SidecarsThrow(d, source, dest)
            && SafeAlong(d, SidecarsOps(d, source, dest), n, g, f)
            && During(d', n, g)
            && !HasSidecars(d', source)
            && Lookup(d', Wal(dest)) == g.wal && Lookup(d', Shm(dest)) == g.shm
            && forall p :: p !in {Wal(source), Shm(source), Wal(dest), Shm(dest)} ==> Lookup(d', p) == Lookup(d, p)
  {
    DistinctNamesUnfold(n);
    DistinctPairUnfold(n.active, n.rollback);
    var source := if back then n.rollback else n.active;
    var dest := if back then n.active else n.rollback;
    var first := SidecarOps(d, Wal(source), Wal(dest));
    var d1 := Replay(d, first);
    DuringOneSidecar(d, n, g, f, true, back);
    var second := SidecarOps(d1, Shm(source), Shm(dest));
    DuringOneSidecar(d1, n, g, f, false, back);
    SafeAlongAppend(d, first, second, n, g, f);
    ReplayAppend(d, first, second);
  }

  lemma RecoverDuring(d: Disk, n: Names, g: Generation, f: File)
    requires DistinctNames(n) && During(d, n, g)
    ensures SafeAlong(d, RecoverOps(d, n.active, n.rollback), n, g, f)
    ensures RecoverOutcome(d, n.active, n.rollback) == Ok(RollbackRestored)
    ensures Before(Recovered(d, n.active, n.rollback), n, g)
  {
    DistinctNamesUnfold(n);
    DistinctPairUnfold(n.active, n.rollback);
    DuringSidecars(d, n, g, f, true);
    var ops := SidecarsOps(d, n.rollback, n.active);
    var d' := Replay(d, ops);
    var last := Rename(n.rollback, n.active);
    ReplayOne(d', last);
    assert Before(Apply(d', last), n, g);
    SafeOne(d', last, n, g, f);
    SafeAlongAppend(d, ops, [last], n, g, f);
    ReplayAppend(d, ops, [last]);
    assert RecoverOps(d, n.active, n.rollback) == ops + [last];
  }

  /** A generation in place, old or new, leaves recovery nothing to move. */
  lemma SettledIdle(d: Disk, n: Names, g: Generation, f: File)
    requires DistinctNames(n) && (Before(d, n, g) || After(d, n, g, f))
    ensures RecoverOps(d, n.active, n.rollback) == [] && !During(d, n, g)
  {
    DistinctNamesUnfold(n);
    DistinctPairUnfold(n.active, n.rollback);
    assert SidecarOps(d, Wal(n.rollback), Wal(n.active)) == [] ==> Replay(d, SidecarOps(d, Wal(n.rollback), Wal(n.active))) == d;
  }

  /** Recovery keeps every disk safe after each of its operations, and from a disk without an active
      main file it reinstates the old generation with all and only its own sidecars. */
  lemma RecoverSafe(d: Disk, n: Names, g: Generation, f: File)
    requires DistinctNames(n) && Safe(d, n, g, f)
    ensures SafeAlong(d, RecoverOps(d, n.active, n.rollback), n, g, f)
    ensures During(d, n, g) ==>
              && RecoverOutcome(d, n.active, n.rollback) == Ok(RollbackRestored)
              && Before(Recovered(d, n.active, n.rollback), n, g)
    ensures !During(d, n, g) ==> RecoverOps(d, n.active, n.rollback) == []
  {
    if During(d, n, g) {
      RecoverDuring(d, n, g, f);
    } else {
      SettledIdle(d, n, g, f);
    }
  }

  /** The main result for recovery: from any safe disk, however many recoveries crash part way, a
      recovery that finishes leaves exactly the old generation active, or exactly the new file active
      with the whole old generation at rollback. It never reports that there is no database, and if it
      throws the old generation is active and complete. */
  lemma {:induction false} RecoveryFinishes(d: Disk, n: Names, g: Generation, f: File, cuts: seq<nat>)
    requires DistinctNames(n) && Safe(d, n, g, f)
    ensures var s := CrashedRecoveries(d, n.active, n.rollback, cuts);
            var s' := Recovered(s, n.active, n.rollback);
            && Safe(s, n, g, f)
            && RecoverOutcome(s, n.active, n.rollback) != Ok(NoDatabase)
            && (Holds(s', n.active, g) || After(s', n, g, f))
            && (RecoverOutcome(s, n.active, n.rollback).Err? ==> s' == s && Holds(s, n.active, g))
    decreases cuts
  {
    RecoverSafe(d, n, g, f);
    DistinctNamesUnfold(n);
    if cuts != [] {
      var ops := RecoverOps(d, n.active, n.rollback);
      var k := if cuts[0] < |ops| then cuts[0] else |ops|;
      SafeAtEveryPrefix(d, ops, k, n, g, f);
      assert ops[..|ops|] == ops;
      RecoveryFinishes(CutRecovery(d, n.active, n.rollback, cuts[0]), n, g, f, cuts[1..]);
    }
  }

  // ---------------------------------------------------------------- restarting a recovery

  lemma SidecarMoved(d: Disk, from: Path, to: Path)
    requires from != to && !Ambiguous(d, from, to)
    ensures var d' := Replay(d, SidecarOps(d, from, to));
            && from !in d'
            && forall p :: p != from && p != to ==> Lookup(d', p) == Lookup(d, p)
  {
    if from in d {
      ReplayOne(d, Rename(from, to));
    }
  }

  /** Whatever is left of the sidecar loop once the `-wal` step is done. */
  lemma SidecarsTail(d: Disk, source: Path, dest: Path)
    requires DistinctPair(dest, source) && Wal(source) !in d
    ensures SidecarsOps(d, source, dest) ==
              if Ambiguous(d, Shm(source), Shm(dest)) then [] else SidecarOps(d, Shm(source), Shm(dest))
    ensures SidecarsThrow(d, source, dest) == Ambiguous(d, Shm(source), Shm(dest))
  {
    assert SidecarOps(d, Wal(source), Wal(dest)) == [];
    assert Replay(d, []) == d;
  }

  /** After a prefix of the sidecar moves, the sidecar loop has exactly the remaining moves left. */
  lemma SidecarsRestart(d: Disk, source: Path, dest: Path, k: nat)
    requires DistinctPair(dest, source) && k <= |SidecarsOps(d, source, dest)|
    ensures var ops := SidecarsOps(d, source, dest);
            var d' := Replay(d, ops[..k]);
            && SidecarsOps(d', source, dest) == ops[k..]
            && SidecarsThrow(d', source, dest) == SidecarsThrow(d, source, dest)
            && (dest in d' <==> dest in d) && (source in d' <==> source in d)
  {
    DistinctPairUnfold(dest, source);
    var ops := SidecarsOps(d, source, dest);
    if k == 0 {
      assert ops[..k] == [] && ops[k..] == ops;
    } else {
      var first := SidecarOps(d, Wal(source), Wal(dest));
      var d1 := Replay(d, first);
      SidecarMoved(d, Wal(source), Wal(dest));
      SidecarsTail(d1, source, dest);
      assert Lookup(d1, dest) == Lookup(d, dest) && Lookup(d1, source) == Lookup(d, source);
      if k == |first| {
        assert ops[..k] == first;
      } else {
        var second := [Rename(Shm(source), Shm(dest))];
        assert ops == first + second && k == |ops|;
        assert ops[..k] == ops && ops[k..] == [];
        ReplayAppend(d, first, second);
        SidecarMoved(d1, Shm(source), Shm(dest));
        var d2 := Replay(d1, second);
        assert Lookup(d2, dest) == Lookup(d1, dest) && Lookup(d2, source) == Lookup(d1, source);
        assert Lookup(d2, Wal(source)) == Lookup(d1, Wal(source));
        SidecarsTail(d2, source, dest);
      }
    }
  }

  /** The sidecar part of a recovery that has something to do. */
  lemma RecoverOpsShape(d: Disk, active: Path, rollback: Path)
    requires RecoverOps(d, active, rollback) != []
    ensures var sides := SidecarsOps(d, rollback, active);
            && DistinctPair(active, rollback) && !(active in d && rollback in d) && (active in d || rollback in d)
            && RecoverOps(d, active, rollback) ==
                 (if active in d || SidecarsThrow(d, rollback, active) then sides else sides + [Rename(rollback, active)])
            && RecoverOutcome(d, active, rollback) ==
                 (if SidecarsThrow(d, rollback, active) then Err(AmbiguousSidecar)
                  else if active in d then Ok(ActivePresent) else Ok(RollbackRestored))
  {
  }

  lemma RestartSidecars(d: Disk, active: Path, rollback: Path, k: nat)
    requires RecoverOps(d, active, rollback) != [] && k <= |SidecarsOps(d, rollback, active)|
    ensures var ops := RecoverOps(d, active, rollback);
            && k <= |ops|
            && var d' := Replay(d, ops[..k]);
            && RecoverOps(d', active, rollback) == ops[k..]
            && RecoverOutcome(d', active, rollback) == RecoverOutcome(d, active, rollback)
  {
    RecoverOpsShape(d, active, rollback);
    var ops := RecoverOps(d, active, rollback);
    var sides := SidecarsOps(d, rollback, active);
    SidecarsRestart(d, rollback, active, k);
    assert ops[..k] == sides[..k];
    var d' := Replay(d, sides[..k]);
    assert ops[k..] == if active in d || SidecarsThrow(d, rollback, active) then sides[k..] else sides[k..] + [Rename(rollback, active)];
  }

  lemma RestartDone(d: Disk, active: Path, rollback: Path)
    requires RecoverOps(d, active, rollback) != [] && active !in d && !SidecarsThrow(d, rollback, active)
    ensures var d' := Replay(d, RecoverOps(d, active, rollback));
            RecoverOps(d', active, rollback) == [] && RecoverOutcome(d', active, rollback) == Ok(ActivePresent)
  {
    RecoverOpsShape(d, active, rollback);
    DistinctPairUnfold(active, rollback);
    var sides := SidecarsOps(d, rollback, active);
    var last := Rename(rollback, active);
    ReplayAppend(d, sides, [last]);
    SidecarsRestart(d, rollback, active, |sides|);
    assert sides[..|sides|] == sides && sides[|sides|..] == [];
    var d1 := Replay(d, sides);
    ReplayOne(d1, last);
    NoSidecarMovesLeft(d1, rollback, active);
    var d' := Apply(d1, last);
    assert active in d' && rollback !in d' && !HasSidecars(d', rollback);
    SidecarsTail(d', rollback, active);
  }

  /** Recovery is restartable from every disk, whether or not it throws there: after any prefix of its
      operations a new recovery issues exactly the remaining ones. At the full prefix it issues none. */
  lemma RestartableRecovery(d: Disk, active: Path, rollback: Path, k: nat)
    requires k <= |RecoverOps(d, active, rollback)|
    ensures var ops := RecoverOps(d, active, rollback);
            var d' := Replay(d, ops[..k]);
            && RecoverOps(d', active, rollback) == ops[k..]
            && Recovered(d', active, rollback) == Recovered(d, active, rollback)
            && (RecoverOutcome(d, active, rollback).Err? ==>
                  RecoverOutcome(d', active, rollback) == RecoverOutcome(d, active, rollback))
            && (RecoverOutcome(d, active, rollback).Ok? ==>
                  RecoverOutcome(d', active, rollback) ==
                  if 0 < k == |ops| then Ok(ActivePresent) else RecoverOutcome(d, active, rollback))
  {
    var ops := RecoverOps(d, active, rollback);
    assert ops[..k] + ops[k..] == ops;
    ReplayAppend(d, ops[..k], ops[k..]);
    if ops == [] {
      assert ops[..k] == [] && ops[k..] == [];
    } else {
      RecoverOpsShape(d, active, rollback);
      if k <= |SidecarsOps(d, rollback, active)| {
        RestartSidecars(d, active, rollback, k);
      } else {
        assert k == |ops| && ops[..k] == ops && ops[k..] == [];
        RestartDone(d, active, rollback);
      }
    }
  }

  lemma NoSidecarMovesLeft(d: Disk, source: Path, dest: Path)
    requires DistinctPair(dest, source)
    requires SidecarsOps(d, source, dest) == [] && !SidecarsThrow(d, source, dest)
    ensures !HasSidecars(d, source)
  {
    DistinctPairUnfold(dest, source);
  }

  /** Any number of crashed recoveries changes nothing about what a finished one leaves. */
  lemma {:induction false} CrashedRecoveriesHarmless(d: Disk, active: Path, rollback: Path, cuts: seq<nat>)
    ensures Recovered(CrashedRecoveries(d, active, rollback, cuts), active, rollback) == Recovered(d, active, rollback)
    decreases cuts
  {
    if cuts != [] {
      var ops := RecoverOps(d, active, rollback);
      RestartableRecovery(d, active, rollback, if cuts[0] < |ops| then cuts[0] else |ops|);
      assert ops[..|ops|] == ops;
      CrashedRecoveriesHarmless(CutRecovery(d, active, rollback, cuts[0]), active, rollback, cuts[1..]);
    }
  }

  /** Running a recovery twice is running it once. */
  lemma RecoverIdempotent(d: Disk, active: Path, rollback: Path)
    ensures Recovered(Recovered(d, active, rollback), active, rollback) == Recovered(d, active, rollback)
    ensures RecoverOps(Recovered(d, active, rollback), active, rollback) == []
  {
    var ops := RecoverOps(d, active, rollback);
    RestartableRecovery(d, active, rollback, |ops|);
    assert ops[..|ops|] == ops;
  }

  // ---------------------------------------------------------------- activation

  lemma RemoveSafe(d: Disk, n: Names, g: Generation, f: File)
    requires DistinctNames(n) && Before(d, n, g)
    ensures SafeAlong(d, RemoveOps(n.rollback), n, g, f)
    ensures Replay(d, RemoveOps(n.rollback)) == d - {n.rollback, Wal(n.rollback), Shm(n.rollback)}
    ensures Before(Replay(d, RemoveOps(n.rollback)), n, g)
  {
    DistinctNamesUnfold(n);
    DistinctPairUnfold(n.active, n.rollback);
    var ops := RemoveOps(n.rollback);
    var d1 := Apply(d, ops[0]);
    var d2 := Apply(d1, ops[1]);
    var d3 := Apply(d2, ops[2]);
    assert ops[1..] == [ops[1], ops[2]] && ops[1..][1..] == [ops[2]] && ops[1..][1..][1..] == [];
    assert Before(d1, n, g) && Before(d2, n, g) && Before(d3, n, g);
    assert SafeAlong(d3, [], n, g, f);
    assert SafeAlong(d2, [ops[2]], n, g, f);
    assert SafeAlong(d1, [ops[1], ops[2]], n, g, f);
    assert Replay(d2, [ops[2]]) == d3;
    assert Replay(d1, [ops[1], ops[2]]) == d3;
    assert d3 == d - {n.rollback, Wal(n.rollback), Shm(n.rollback)};
  }

  /** Moving the old generation to an empty rollback path. */
  lemma MoveGenerationSafe(d: Disk, n: Names, g: Generation, f: File)
    requires DistinctNames(n) && Before(d, n, g)
    requires n.rollback !in d && !HasSidecars(d, n.rollback)
    ensures var ops := MoveGenerationOps(d, n.active, n.rollback);
            var d' := Replay(d, ops);
            && SafeAlong(d, ops, n, g, f)
            && !SidecarsThrow(Apply(d, Rename(n.active, n.rollback)), n.active, n.rollback)
            && During(d', n, g) && !HasSidecars(d', n.active) && Holds(d', n.rollback, g)
            && forall p :: !Touched(n, p) || p == n.staging ==> Lookup(d', p) == Lookup(d, p)
  {
    DistinctNamesUnfold(n);
    DistinctPairUnfold(n.active, n.rollback);
    var move := Rename(n.active, n.rollback);
    var d1 := Apply(d, move);
    assert During(d1, n, g);
    SafeOne(d, move, n, g, f);
    ReplayOne(d, move);
    DuringSidecars(d1, n, g, f, false);
    var sides := SidecarsOps(d1, n.active, n.rollback);
    SafeAlongAppend(d, [move], sides, n, g, f);
    ReplayAppend(d, [move], sides);
    var d2 := Replay(d1, sides);
    forall p | !Touched(n, p) || p == n.staging ensures Lookup(d2, p) == Lookup(d, p) {
      assert Lookup(d2, p) == Lookup(d1, p);
    }
  }

  /** Putting the staged file in the empty active path. */
  lemma StagedMoveSafe(d: Disk, n: Names, g: Generation, f: File)
    requires DistinctNames(n) && During(d, n, g) && !HasSidecars(d, n.active)
    requires Lookup(d, n.staging) == Some(f)
    ensures After(Apply(d, Rename(n.staging, n.active)), n, g, f)
  {
    DistinctNamesUnfold(n);
    DistinctPairUnfold(n.active, n.rollback);
  }

  /** Undoing the activation: removing whatever is active while the old generation is at rollback. */
  lemma RemoveActiveSafe(d: Disk, n: Names, g: Generation, f: File)
    requires DistinctNames(n)
    requires After(d, n, g, f) || (During(d, n, g) && !HasSidecars(d, n.active))
    ensures SafeAlong(d, RemoveOps(n.active), n, g, f)
    ensures During(Replay(d, RemoveOps(n.active)), n, g)
  {
    DistinctNamesUnfold(n);
    DistinctPairUnfold(n.active, n.rollback);
    var ops := RemoveOps(n.active);
    var d1 := Apply(d, ops[0]);
    var d2 := Apply(d1, ops[1]);
    var d3 := Apply(d2, ops[2]);
    assert ops[1..] == [ops[1], ops[2]] && ops[1..][1..] == [ops[2]] && ops[1..][1..][1..] == [];
    assert During(d1, n, g) && During(d2, n, g) && During(d3, n, g);
    assert SafeAlong(d3, [], n, g, f);
    assert SafeAlong(d2, [ops[2]], n, g, f);
    assert SafeAlong(d1, [ops[1], ops[2]], n, g, f);
    assert Replay(d2, [ops[2]]) == d3;
    assert Replay(d1, [ops[1], ops[2]]) == d3;
  }

  /** The seven paths an activation may change. */
  predicate Touched(n: Names, p: Path) {
    p in {n.staging, n.active, Wal(n.active), Shm(n.active), n.rollback, Wal(n.rollback), Shm(n.rollback)}
  }

  /** Swapping in the staged file, from a disk whose old generation is complete. */
  lemma SwapSafe(d: Disk, n: Names, g: Generation, f: File)
    requires DistinctNames(n) && Before(d, n, g) && Lookup(d, n.staging) == Some(f)
    ensures SafeAlong(d, SwapOps(d, n), n, g, f)
    ensures var d' := Replay(d, SwapOps(d, n));
            && After(d', n, g, f) && n.staging !in d'
            && forall p :: !Touched(n, p) ==> Lookup(d', p) == Lookup(d, p)
  {
    DistinctNamesUnfold(n);
    RemoveSafe(d, n, g, f);
    var d1 := Replay(d, RemoveOps(n.rollback));
    MoveGenerationSafe(d1, n, g, f);
    var moves := MoveGenerationOps(d1, n.active, n.rollback);
    var d2 := Replay(d1, moves);
    var last := Rename(n.staging, n.active);
    assert Lookup(d2, n.staging) == Lookup(d1, n.staging) == Some(f);
    StagedMoveSafe(d2, n, g, f);
    SafeOne(d2, last, n, g, f);
    ReplayOne(d2, last);
    SafeAlongAppend(d, RemoveOps(n.rollback), moves, n, g, f);
    ReplayAppend(d, RemoveOps(n.rollback), moves);
    SafeAlongAppend(d, RemoveOps(n.rollback) + moves, [last], n, g, f);
    ReplayAppend(d, RemoveOps(n.rollback) + moves, [last]);
    var d3 := Apply(d2, last);
    assert Replay(d, SwapOps(d, n)) == d3;
    forall p | !Touched(n, p) ensures Lookup(d3, p) == Lookup(d, p) {
      assert Lookup(d2, p) == Lookup(d1, p);
      assert Lookup(d1, p) == Lookup(d, p);
    }
  }

  lemma ActivateSafe(d: Disk, n: Names, expected: int, authorised: bool, g: Generation, f: File)
    requires DistinctNames(n) && Before(d, n, g)
    requires Lookup(d, n.staging) == Some(f)
    ensures SafeAlong(d, ActivateOps(d, n, expected, authorised), n, g, f)
  {
    if Precheck(d, n, expected, authorised).None? {
      DistinctNamesUnfold(n);
      RecoverSafe(d, n, g, f);
      assert RecoverOps(d, n.active, n.rollback) == [];
      SwapSafe(d, n, g, f);
      assert [] + SwapOps(d, n) == SwapOps(d, n);
    }
  }

  /** An activation that completes leaves exactly the staged file active and exactly the old generation
      at rollback, with no staged file left and no other path changed. */
  lemma ActivationResult(d: Disk, n: Names, expected: int, authorised: bool, g: Generation, f: File)
    requires Before(d, n, g) && Lookup(d, n.staging) == Some(f)
    requires Precheck(d, n, expected, authorised).None?
    requires RecoverOutcome(d, n.active, n.rollback).Ok?
    ensures var d' := Replay(d, ActivateOps(d, n, expected, authorised));
            && After(d', n, g, f) && n.staging !in d'
            && forall p :: !Touched(n, p) ==> Lookup(d', p) == Lookup(d, p)
  {
    DistinctNamesUnfold(n);
    RecoverSafe(d, n, g, f);
    SwapSafe(d, n, g, f);
    assert [] + SwapOps(d, n) == SwapOps(d, n);
  }

  /** The first activation, with nothing active and nothing to roll back to, installs just the file, next
      to which there is no sidecar. */
  lemma FirstActivation(d: Disk, n: Names, expected: int, authorised: bool, f: File)
    requires RecoverOutcome(d, n.active, n.rollback) == Ok(NoDatabase)
    requires Precheck(d, n, expected, authorised).None? && Lookup(d, n.staging) == Some(f)
    ensures var d' := Replay(d, ActivateOps(d, n, expected, authorised));
            d' == (d - {n.staging})[n.active := f] && Holds(d', n.active, Generation(f, None, None))
  {
    DistinctNamesUnfold(n);
    DistinctPairUnfold(n.active, n.rollback);
    RecoverAnswers(d, n.active, n.rollback);
    assert GenerationPaths(n.active)[1] == Wal(n.active) && GenerationPaths(n.active)[2] == Shm(n.active);
    assert Wal(n.active) in GenerationPaths(n.active) + GenerationPaths(n.rollback);
    assert Shm(n.active) in GenerationPaths(n.active) + GenerationPaths(n.rollback);
    var op := Rename(n.staging, n.active);
    assert [] + [op] == [op];
    ReplayOne(d, op);
  }

  /** Crash consistency over whole runs: activation crashes after any number of its operations, any
      number of recoveries crash after any number of theirs, and then a recovery finishes. */
  lemma CrashConsistency(d: Disk, n: Names, expected: int, authorised: bool, g: Generation, f: File,
                         crash: nat, cuts: seq<nat>)
    requires DistinctNames(n) && Before(d, n, g) && Lookup(d, n.staging) == Some(f)
    requires crash <= |ActivateOps(d, n, expected, authorised)|
    ensures var ops := ActivateOps(d, n, expected, authorised);
            var s := CrashedRecoveries(Replay(d, ops[..crash]), n.active, n.rollback, cuts);
            var s' := Recovered(s, n.active, n.rollback);
            && Sound(s, n, g, f)
            && RecoverOutcome(s, n.active, n.rollback) != Ok(NoDatabase)
            && (Holds(s', n.active, g) || After(s', n, g, f))
  {
    ActivateSafe(d, n, expected, authorised, g, f);
    var ops := ActivateOps(d, n, expected, authorised);
    SafeAtEveryPrefix(d, ops, crash, n, g, f);
    RecoveryFinishes(Replay(d, ops[..crash]), n, g, f, cuts);
  }

  // ---------------------------------------------------------------- exactly when a crash can mix generations

  /** Rollback sidecars that recovery could take for the active generation's own. */
  predicate StaleSidecarHazard(d: Disk, n: Names) {
    var wal := Wal(n.rollback) in d && Wal(n.active) !in d;
    var shm := Shm(n.rollback) in d && Shm(n.active) !in d;
    if n.rollback in d then wal || shm
    else (wal || shm) && !(Wal(n.rollback) in d && Wal(n.active) in d)
  }

  /** After `crash` operations of activation and then a series of crashed recoveries. */
  function CrashPoint(d: Disk, n: Names, expected: int, authorised: bool, crash: nat, cuts: seq<nat>): Disk
    requires crash <= |ActivateOps(d, n, expected, authorised)|
  {
    CrashedRecoveries(Replay(d, ActivateOps(d, n, expected, authorised)[..crash]), n.active, n.rollback, cuts)
  }

  ghost predicate NeverMixes(d: Disk, n: Names, expected: int, authorised: bool, g: Generation, f: File) {
    forall crash: nat, cuts: seq<nat> | crash <= |ActivateOps(d, n, expected, authorised)| ::
      Sound(CrashPoint(d, n, expected, authorised, crash, cuts), n, g, f)
  }

  /** A recovery that starts with a sidecar of the rollback path next to the active file mixes the two. */
  lemma StaleSidecarMixes(s: Disk, n: Names, g: Generation, f: File)
    requires DistinctNames(n) && Holds(s, n.active, g) && n.rollback !in s
    requires RecoverOps(s, n.active, n.rollback) != []
    ensures !Sound(CutRecovery(s, n.active, n.rollback, 1), n, g, f)
  {
    DistinctNamesUnfold(n);
    DistinctPairUnfold(n.active, n.rollback);
    var first := SidecarOps(s, Wal(n.rollback), Wal(n.active));
    var rec := RecoverOps(s, n.active, n.rollback);
    assert rec == SidecarsOps(s, n.rollback, n.active);
    var moved := if first != [] then first[0] else Rename(Shm(n.rollback), Shm(n.active));
    if first == [] {
      assert Replay(s, first) == s;
    }
    assert rec[0] == moved && (if 1 < |rec| then rec[..1] else rec) == [moved];
    ReplayOne(s, moved);
  }

  lemma ActivateStarts(d: Disk, n: Names, expected: int, authorised: bool)
    requires Precheck(d, n, expected, authorised).None? && n.active in d && n.rollback in d
    ensures var ops := ActivateOps(d, n, expected, authorised);
            |ops| >= 3 && ops[0] == Remove(n.rollback) && ops[1] == Remove(Wal(n.rollback))
  {
    DistinctNamesUnfold(n);
    assert RecoverOps(d, n.active, n.rollback) == [];
    assert [] + SwapOps(d, n) == SwapOps(d, n);
  }

  /** With a rollback main file in the way, one or two removals uncover the stale sidecar. */
  lemma HazardUncovered(d: Disk, n: Names, expected: int, authorised: bool, g: Generation) returns (crash: nat)
    requires Precheck(d, n, expected, authorised).None?
    requires Holds(d, n.active, g) && n.rollback in d && StaleSidecarHazard(d, n)
    ensures crash <= |ActivateOps(d, n, expected, authorised)|
    ensures var s := Replay(d, ActivateOps(d, n, expected, authorised)[..crash]);
            Holds(s, n.active, g) && n.rollback !in s && RecoverOps(s, n.active, n.rollback) != []
  {
    DistinctNamesUnfold(n);
    DistinctPairUnfold(n.active, n.rollback);
    var ops := ActivateOps(d, n, expected, authorised);
    ActivateStarts(d, n, expected, authorised);
    var d1 := d - {n.rollback};
    ReplayOne(d, ops[0]);
    if Wal(n.rollback) in d && Wal(n.active) !in d {
      crash := 1;
      assert ops[..1] == [ops[0]];
    } else {
      crash := 2;
      assert ops[..2] == [ops[0]] + [ops[1]];
      ReplayOne(d1, ops[1]);
      ReplayAppend(d, [ops[0]], [ops[1]]);
      var s := d1 - {Wal(n.rollback)};
      assert SidecarOps(s, Wal(n.rollback), Wal(n.active)) == [] && Replay(s, []) == s;
    }
  }

  /** One crash of activation and one of recovery are enough. */
  lemma HazardMixes(d: Disk, n: Names, expected: int, authorised: bool, g: Generation, f: File)
    returns (crash: nat, cut: nat)
    requires Precheck(d, n, expected, authorised).None?
    requires Holds(d, n.active, g) && StaleSidecarHazard(d, n)
    ensures crash <= |ActivateOps(d, n, expected, authorised)|
    ensures !Sound(CrashPoint(d, n, expected, authorised, crash, [cut]), n, g, f)
  {
    cut := 1;
    crash := 0;
    if n.rollback in d {
      crash := HazardUncovered(d, n, expected, authorised, g);
    } else {
      assert ActivateOps(d, n, expected, authorised)[..0] == [];
      StaleIsTaken(d, n, g);
    }
    var s := Replay(d, ActivateOps(d, n, expected, authorised)[..crash]);
    StaleSidecarMixes(s, n, g, f);
    OneCrashedRecovery(s, n.active, n.rollback, cut);
  }

  lemma OneCrashedRecovery(d: Disk, active: Path, rollback: Path, cut: nat)
    ensures CrashedRecoveries(d, active, rollback, [cut]) == CutRecovery(d, active, rollback, cut)
  {
    assert [cut][1..] == [];
    assert CrashedRecoveries(CutRecovery(d, active, rollback, cut), active, rollback, []) == CutRecovery(d, active, rollback, cut);
  }

  lemma {:induction false} SettledStays(d: Disk, active: Path, rollback: Path, cuts: seq<nat>)
    requires RecoverOps(d, active, rollback) == []
    ensures CrashedRecoveries(d, active, rollback, cuts) == d
    decreases cuts
  {
    if cuts != [] {
      SettledStays(d, active, rollback, cuts[1..]);
    }
  }

  lemma StaleIsTaken(d: Disk, n: Names, g: Generation)
    requires DistinctNames(n) && Holds(d, n.active, g) && n.rollback !in d && StaleSidecarHazard(d, n)
    ensures RecoverOps(d, n.active, n.rollback) != []
  {
    DistinctNamesUnfold(n);
    DistinctPairUnfold(n.active, n.rollback);
    assert SidecarOps(d, Wal(n.rollback), Wal(n.active)) == [] ==> Replay(d, SidecarOps(d, Wal(n.rollback), Wal(n.active))) == d;
  }

  /** The exact condition: activation, crashed anywhere and followed by any series of crashed recoveries,
      never leaves a mix and never leaves nothing, if and only if the starting disk has no stale-sidecar
      hazard. */
  lemma CrashSafetyExact(d: Disk, n: Names, expected: int, authorised: bool, g: Generation, f: File)
    requires Precheck(d, n, expected, authorised).None?
    requires Holds(d, n.active, g) && Lookup(d, n.staging) == Some(f)
    ensures NeverMixes(d, n, expected, authorised, g, f) <==> !StaleSidecarHazard(d, n)
  {
    if StaleSidecarHazard(d, n) {
      var crash, cut := HazardMixes(d, n, expected, authorised, g, f);
    } else {
      forall crash: nat, cuts: seq<nat> | crash <= |ActivateOps(d, n, expected, authorised)|
        ensures Sound(CrashPoint(d, n, expected, authorised, crash, cuts), n, g, f)
      {
        if Before(d, n, g) {
          CrashConsistency(d, n, expected, authorised, g, f, crash, cuts);
        } else {
          DistinctNamesUnfold(n);
          assert RecoverOutcome(d, n.active, n.rollback) == Err(AmbiguousSidecar);
          assert RecoverOps(d, n.active, n.rollback) == [];
          SettledStays(d, n.active, n.rollback, cuts);
        }
      }
    }
  }

  // ---------------------------------------------------------------- what each routine answers, exactly

  /** Both paths have a file for the suffix: the sidecar loop stops there. */
  predicate Clashes(d: Disk, a: Path, r: Path) { (Wal(a) in d && Wal(r) in d) || (Shm(a) in d && Shm(r) in d) }

  /** Where a sidecar ends up when its rollback copy, if any, is moved next to the active file. */
  function Gathered(d: Disk, at: Path, from: Path): Option<File> { if at in d then Some(d[at]) else Lookup(d, from) }

  lemma SidecarsExactly(d: Disk, a: Path, r: Path)
    requires DistinctPair(a, r)
    ensures SidecarsThrow(d, r, a) <==> Clashes(d, a, r)
    ensures var d' := Replay(d, SidecarsOps(d, r, a));
            && (!Clashes(d, a, r) ==>
                  && Lookup(d', Wal(a)) == Gathered(d, Wal(a), Wal(r)) && Lookup(d', Shm(a)) == Gathered(d, Shm(a), Shm(r))
                  && Wal(r) !in d' && Shm(r) !in d')
            && forall p :: p !in {Wal(a), Shm(a), Wal(r), Shm(r)} ==> Lookup(d', p) == Lookup(d, p)
  {
    DistinctPairUnfold(a, r);
    var first := SidecarOps(d, Wal(r), Wal(a));
    var d1 := Replay(d, first);
    if first != [] { ReplayOne(d, first[0]); }
    var second := SidecarOps(d1, Shm(r), Shm(a));
    if second != [] { ReplayOne(d1, second[0]); }
    ReplayAppend(d, first, second);
  }

  lemma RecoverRefusesOverlap(d: Disk, a: Path, r: Path)
    requires !DistinctPair(a, r)
    ensures RecoverOutcome(d, a, r) == Err(OverlappingPaths) && Recovered(d, a, r) == d
  {
  }

  /** The answer of recovery on every disk: by which main files are there and, where sidecars are to be
      moved, by whether two claim one place; "no database" only if none of the six files is there. */
  lemma RecoverAnswers(d: Disk, a: Path, r: Path)
    requires DistinctPair(a, r)
    ensures a in d && r in d ==> RecoverOutcome(d, a, r) == Ok(ActivePresent)
    ensures a in d && r !in d ==> RecoverOutcome(d, a, r) == if Clashes(d, a, r) then Err(AmbiguousSidecar) else Ok(ActivePresent)
    ensures a !in d && r in d ==> RecoverOutcome(d, a, r) == if Clashes(d, a, r) then Err(AmbiguousSidecar) else Ok(RollbackRestored)
    ensures a !in d && r !in d ==>
              RecoverOutcome(d, a, r) ==
                if forall p :: p in GenerationPaths(a) + GenerationPaths(r) ==> p !in d then Ok(NoDatabase) else Err(OrphanedSidecars)
  {
    SidecarsExactly(d, a, r);
    var six := GenerationPaths(a) + GenerationPaths(r);
    assert six == [a, Wal(a), Shm(a), r, Wal(r), Shm(r)];
    assert six[0] in six && six[1] in six && six[2] in six && six[3] in six && six[4] in six && six[5] in six;
  }

  /** The disk a finished recovery leaves, wherever it started: nothing moves while both main files or
      neither is there; otherwise each rollback sidecar whose place is free joins the active file, and a
      rollback main file without an active one becomes the active one. */
  lemma RecoverLeaves(d: Disk, a: Path, r: Path)
    requires DistinctPair(a, r) && RecoverOutcome(d, a, r).Ok?
    ensures var d' := Recovered(d, a, r);
            && ((a in d) == (r in d) ==> d' == d)
            && ((a in d) != (r in d) ==>
                  && Lookup(d', a) == (if a in d then Some(d[a]) else Some(d[r])) && r !in d'
                  && Lookup(d', Wal(a)) == Gathered(d, Wal(a), Wal(r)) && Lookup(d', Shm(a)) == Gathered(d, Shm(a), Shm(r))
                  && Wal(r) !in d' && Shm(r) !in d'
                  && forall p :: p !in {a, Wal(a), Shm(a), r, Wal(r), Shm(r)} ==> Lookup(d', p) == Lookup(d, p))
  {
    DistinctPairUnfold(a, r);
    SidecarsExactly(d, a, r);
    var d1 := Replay(d, SidecarsOps(d, r, a));
    assert Lookup(d1, a) == Lookup(d, a) && Lookup(d1, r) == Lookup(d, r);
    if a !in d && r in d {
      ReplayAppend(d, SidecarsOps(d, r, a), [Rename(r, a)]);
      ReplayOne(d1, Rename(r, a));
    }
  }

  /** What activation refuses, in its order; a refused activation touches nothing. */
  lemma PrecheckExactly(d: Disk, n: Names, expected: int, authorised: bool)
    ensures Precheck(d, n, expected, authorised).None? <==>
              && expected >= 0 && authorised && DistinctNames(n)
              && Wal(n.staging) !in d && Shm(n.staging) !in d
              && n.staging in d && d[n.staging].intact && d[n.staging].schemaVersion == expected
    ensures Precheck(d, n, expected, authorised) == Some(InvalidSchemaVersion) <==> expected < 0
    ensures Precheck(d, n, expected, authorised) == Some(NotConfirmed) <==> expected >= 0 && !authorised
    ensures Precheck(d, n, expected, authorised) == Some(OverlappingPaths) <==> expected >= 0 && authorised && !DistinctNames(n)
    ensures Precheck(d, n, expected, authorised) == Some(StagedSidecars) ==> HasSidecars(d, n.staging)
    ensures Precheck(d, n, expected, authorised) == Some(InvalidDatabase) ==>
              n.staging !in d || !d[n.staging].intact || d[n.staging].schemaVersion != expected
    ensures Precheck(d, n, expected, authorised).Some? ==> ActivateOps(d, n, expected, authorised) == []
  {
  }

  /** An activation that finds a half-moved generation first restores it and then swaps: every disk on the
      way is safe, and in the end the staged file is active and the old generation wholly at rollback. */
  lemma HalfMovedActivation(d: Disk, n: Names, expected: int, authorised: bool, g: Generation, f: File)
    requires During(d, n, g) && Lookup(d, n.staging) == Some(f) && Precheck(d, n, expected, authorised).None?
    ensures SafeAlong(d, ActivateOps(d, n, expected, authorised), n, g, f)
    ensures After(Replay(d, ActivateOps(d, n, expected, authorised)), n, g, f)
  {
    DistinctNamesUnfold(n);
    DistinctPairUnfold(n.active, n.rollback);
    RecoverSafe(d, n, g, f);
    SidecarsExactly(d, n.active, n.rollback);
    assert !Clashes(d, n.active, n.rollback);
    RecoverLeaves(d, n.active, n.rollback);
    var recovery := RecoverOps(d, n.active, n.rollback);
    var d1 := Replay(d, recovery);
    assert Lookup(d1, n.staging) == Lookup(d, n.staging);
    assert Before(d1, n, g);
    SwapSafe(d1, n, g, f);
    SafeAlongAppend(d, recovery, SwapOps(d1, n), n, g, f);
    ReplayAppend(d, recovery, SwapOps(d1, n));
  }

  // ---------------------------------------------------------------- the hazard after an activation

  /** With a generation at the rollback path, the hazard is exactly a sidecar of it that the active path
      lacks. */
  lemma HazardExactly(d: Disk, n: Names, g: Generation)
    requires Holds(d, n.rollback, g)
    ensures StaleSidecarHazard(d, n) <==>
            (g.wal.Some? && Wal(n.active) !in d) || (g.shm.Some? && Shm(n.active) !in d)
  {
  }

  lemma StagingSidecarsUntouched(n: Names)
    requires DistinctNames(n)
    ensures !Touched(n, Wal(n.staging)) && !Touched(n, Shm(n.staging))
  {
    var all := GenerationPaths(n.staging) + GenerationPaths(n.active) + GenerationPaths(n.rollback);
    assert all[0] == n.staging && all[1] == Wal(n.staging) && all[2] == Shm(n.staging);
    assert all[3] == n.active && all[4] == Wal(n.active) && all[5] == Shm(n.active);
    assert all[6] == n.rollback && all[7] == Wal(n.rollback) && all[8] == Shm(n.rollback);
  }

  /** A completed activation arms the hazard for the next one over the same paths: if the old generation
      had a sidecar, then until the service has recreated it a second activation of whatever valid staged
      file can be crashed into a mix; if it had none, it cannot. */
  lemma ActivationArmsHazard(d: Disk, n: Names, expected: int, g: Generation, f: File, staged: File, expected2: int)
    requires Before(d, n, g) && Lookup(d, n.staging) == Some(f)
    requires Precheck(d, n, expected, true).None? && RecoverOutcome(d, n.active, n.rollback).Ok?
    requires expected2 >= 0 && ValidFile(staged, expected2)
    ensures var d' := Replay(d, ActivateOps(d, n, expected, true))[n.staging := staged];
            && Precheck(d', n, expected2, true).None?
            && Holds(d', n.active, Generation(f, None, None)) && Holds(d', n.rollback, g)
            && (StaleSidecarHazard(d', n) <==> g.wal.Some? || g.shm.Some?)
            && (NeverMixes(d', n, expected2, true, Generation(f, None, None), staged) <==> g.wal.None? && g.shm.None?)
  {
    DistinctNamesUnfold(n);
    DistinctPairUnfold(n.active, n.rollback);
    ActivationResult(d, n, expected, true, g, f);
    StagingSidecarsUntouched(n);
    var d1 := Replay(d, ActivateOps(d, n, expected, true));
    assert Lookup(d1, Wal(n.staging)) == Lookup(d, Wal(n.staging)) && Lookup(d1, Shm(n.staging)) == Lookup(d, Shm(n.staging));
    var d' := d1[n.staging := staged];
    HazardExactly(d', n, g);
    CrashSafetyExact(d', n, expected2, true, Generation(f, None, None), staged);
  }

  /** A database with a `-wal` from an unclean stop, and a staged file. */
  const EXAMPLE_NAMES := Names("s", "a", "r")
  const EXAMPLE_DISK: Disk := map["a" := File(0, true, 6), Wal("a") := File(1, true, 6), "s" := File(2, true, 6)]

  lemma ExampleNamesDistinct()
    ensures DistinctNames(EXAMPLE_NAMES)
  {
    var ps := GenerationPaths("s") + GenerationPaths("a") + GenerationPaths("r");
    forall i | 0 <= i < 9 ensures |ps[i]| >= 1 && ps[i][0] == "sar"[i / 3] {
      assert ps[i] == GenerationPaths(["sar"[i / 3]])[i % 3];
    }
    forall i | 0 <= i < 9 ensures if i % 3 == 0 then |ps[i]| == 1 else |ps[i]| == 5 && ps[i][2] == "-ws"[i % 3] {
      assert ps[i] == GenerationPaths(["sar"[i / 3]])[i % 3];
    }
    forall i, j | 0 <= i < j < |ps| ensures ps[i] != ps[j] {
      if i / 3 == j / 3 {
        assert i % 3 != j % 3;
      }
    }
  }

  lemma ExampleStart()
    ensures var n := EXAMPLE_NAMES;
            && Before(EXAMPLE_DISK, n, Generation(File(0, true, 6), Some(File(1, true, 6)), None))
            && Precheck(EXAMPLE_DISK, n, 6, true).None? && RecoverOutcome(EXAMPLE_DISK, n.active, n.rollback) == Ok(ActivePresent)
  {
    ExampleNamesDistinct();
    DistinctNamesUnfold(EXAMPLE_NAMES);
    DistinctPairUnfold("a", "r");
    StagingSidecarsUntouched(EXAMPLE_NAMES);
  }

  /** Two restores in a row on one disk: the first succeeds, and the second can be crashed into a mix. */
  lemma SecondRestoreCanMix(staged: File) returns (crash: nat, cut: nat)
    requires ValidFile(staged, 6)
    ensures var n := EXAMPLE_NAMES;
            var d1 := Replay(EXAMPLE_DISK, ActivateOps(EXAMPLE_DISK, n, 6, true));
            var d2 := d1[n.staging := staged];
            && After(d1, n, Generation(File(0, true, 6), Some(File(1, true, 6)), None), File(2, true, 6))
            && Precheck(d2, n, 6, true).None?
            && crash <= |ActivateOps(d2, n, 6, true)|
            && !Sound(CrashPoint(d2, n, 6, true, crash, [cut]), n, Generation(File(2, true, 6), None, None), staged)
  {
    var n, g, f := EXAMPLE_NAMES, Generation(File(0, true, 6), Some(File(1, true, 6)), None), File(2, true, 6);
    ExampleStart();
    ActivationResult(EXAMPLE_DISK, n, 6, true, g, f);
    ActivationArmsHazard(EXAMPLE_DISK, n, 6, g, f, staged, 6);
    var d2 := Replay(EXAMPLE_DISK, ActivateOps(EXAMPLE_DISK, n, 6, true))[n.staging := staged];
    crash, cut := HazardMixes(d2, n, 6, true, Generation(f, None, None), staged);
  }
}
