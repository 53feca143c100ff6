/**
 The restore routines themselves: one disk call after another, any of which may fail, with the
 compensation the source performs when one does. Each is proved against the operation lists of `Restore`.
 */
module RestoreService {
  import opened Common
  import opened Restore

  const SIDECAR_SUFFIXES: seq<string> := ["-wal", "-shm"]

  /** The disk as the process sees it. `faulted` records that some call failed with an I/O error. */
  class FileSystem {
    var disk: Disk
    ghost var faulted: bool

    constructor (disk: Disk)
      ensures this.disk == disk && !faulted
    {
      this.disk := disk;
      faulted := false;
    }

    /** `rm` with `force`: a missing path is not an error. */
    method Rm(p: Path) returns (r: Result<(), Error>)
      modifies this
      ensures r.Ok? ==> disk == Apply(old(disk), Remove(p)) && faulted == old(faulted)
      ensures r.Err? ==> disk == old(disk) && faulted && r.error == IoFault
    {
      if * {
        faulted := true;
        return Err(IoFault);
      }
      disk := disk - {p};
      return Ok(());
    }

    method RenameFile(from: Path, to: Path) returns (r: Result<(), Error>)
      modifies this
      ensures r.Ok? ==> from in old(disk) && disk == Apply(old(disk), Rename(from, to)) && faulted == old(faulted)
      ensures r.Err? ==> disk == old(disk)
      ensures r.Err? ==> if from in disk then faulted && r.error == IoFault else faulted == old(faulted) && r.error == MissingSource
    {
      if from !in disk {
        return Err(MissingSource);
      }
      if * {
        faulted := true;
        return Err(IoFault);
      }
      disk := (disk - {from})[to := disk[from]];
      return Ok(());
    }

    /** `chmod` and `mkdir -p`: no effect on the files, but they can fail. */
    method Prepare() returns (r: Result<(), Error>)
      modifies this`faulted
      ensures r.Ok? ==> faulted == old(faulted)
      ensures r.Err? ==> faulted && r.error == IoFault
    {
      if * {
        faulted := true;
        return Err(IoFault);
      }
      return Ok(());
    }

    method ValidateDatabase(p: Path, expected: int) returns (r: Result<(), Error>)
      modifies this`faulted
      ensures r.Ok? ==> faulted == old(faulted) && p in disk && ValidFile(disk[p], expected)
      ensures r.Err? ==> if p in disk && ValidFile(disk[p], expected) then faulted && r.error == IoFault
                         else faulted == old(faulted) && r.error == InvalidDatabase
    {
      if p !in disk || !disk[p].intact || disk[p].schemaVersion != expected {
        return Err(InvalidDatabase);
      }
      if * {
        faulted := true;
        return Err(IoFault);
      }
      return Ok(());
    }
  }

  /** The pairwise comparison of all generation paths. */
  method AssertDistinctPaths(paths: seq<Path>) returns (ok: bool)
    ensures ok <==> AllDistinct(paths)
  {
    for index := 0 to |paths|
      invariant forall i, j :: 0 <= i < index && i < j < |paths| ==> paths[i] != paths[j]
    {
      for comparison := index + 1 to |paths|
        invariant forall j :: index < j < comparison ==> paths[index] != paths[j]
      {
        if paths[index] == paths[comparison] {
          return false;
        }
      }
    }
    return true;
  }

  method AssertNoDatabaseSidecars(fs: FileSystem, path: Path) returns (ok: bool)
    ensures ok <==> !HasSidecars(fs.disk, path)
  {
    for i := 0 to |SIDECAR_SUFFIXES|
      invariant forall j :: 0 <= j < i ==> path + SIDECAR_SUFFIXES[j] !in fs.disk
    {
      if path + SIDECAR_SUFFIXES[i] in fs.disk {
        return false;
      }
    }
    assert SIDECAR_SUFFIXES[0] == "-wal" && SIDECAR_SUFFIXES[1] == "-shm";
    return true;
  }

  method RemoveDatabaseGeneration(fs: FileSystem, path: Path) returns (r: Result<(), Error>, ghost done: seq<Op>)
    modifies fs
    ensures done <= RemoveOps(path) && fs.disk == Replay(old(fs.disk), done)
    ensures r.Ok? ==> done == RemoveOps(path) && fs.faulted == old(fs.faulted)
    ensures r.Err? ==> fs.faulted
  {
    done := [];
    var paths := GenerationPaths(path);
    for i := 0 to |paths|
      invariant done == RemoveOps(path)[..i]
      invariant fs.disk == Replay(old(fs.disk), done) && fs.faulted == old(fs.faulted)
    {
      r := fs.Rm(paths[i]);
      if r.Err? {
        return;
      }
      ReplayAppend(old(fs.disk), done, [Remove(paths[i])]);
      ReplayOne(Replay(old(fs.disk), done), Remove(paths[i]));
      done := done + [Remove(paths[i])];
    }
    r := Ok(());
  }

  /** What a loop over the two suffixes has done when it reaches suffix `i`. */
  ghost predicate SidecarProgress(d: Disk, source: Path, dest: Path, i: nat, done: seq<Op>) {
    && (i == 0 ==> done == [])
    && (i >= 1 ==> !Ambiguous(d, Wal(source), Wal(dest)))
    && (i == 1 ==> done == SidecarOps(d, Wal(source), Wal(dest)))
    && (i >= 2 ==> done == SidecarsOps(d, source, dest) && !SidecarsThrow(d, source, dest))
  }

  lemma SidecarStep(d: Disk, source: Path, dest: Path, i: nat, done: seq<Op>)
    requires i < 2 && SidecarProgress(d, source, dest, i, done)
    ensures var s := Replay(d, done);
            var from := source + SIDECAR_SUFFIXES[i];
            var to := dest + SIDECAR_SUFFIXES[i];
            && done <= SidecarsOps(d, source, dest)
            && (Ambiguous(s, from, to) ==> done == SidecarsOps(d, source, dest) && SidecarsThrow(d, source, dest))
            && (!Ambiguous(s, from, to) ==>
                  && SidecarProgress(d, source, dest, i + 1, done + SidecarOps(s, from, to))
                  && done + SidecarOps(s, from, to) <= SidecarsOps(d, source, dest))
  {
    assert source + SIDECAR_SUFFIXES[i] == if i == 0 then Wal(source) else Shm(source);
    assert dest + SIDECAR_SUFFIXES[i] == if i == 0 then Wal(dest) else Shm(dest);
    if i == 0 {
      assert [] + SidecarOps(d, Wal(source), Wal(dest)) == SidecarOps(d, Wal(source), Wal(dest));
    }
  }

  /** The loop of recovery: a sidecar present at both places is ambiguous. */
  method RestoreMissingSidecars(fs: FileSystem, source: Path, dest: Path)
    returns (r: Result<(), Error>, ghost done: seq<Op>)
    modifies fs
    ensures done <= SidecarsOps(old(fs.disk), source, dest) && fs.disk == Replay(old(fs.disk), done)
    ensures r.Ok? ==> fs.faulted == old(fs.faulted) && !SidecarsThrow(old(fs.disk), source, dest)
    ensures r.Err? && !fs.faulted ==> r.error == AmbiguousSidecar && SidecarsThrow(old(fs.disk), source, dest)
    ensures r.Ok? || !fs.faulted ==> done == SidecarsOps(old(fs.disk), source, dest)
    ensures old(fs.faulted) ==> fs.faulted
  {
    ghost var d := fs.disk;
    done := [];
    for i := 0 to |SIDECAR_SUFFIXES|
      invariant SidecarProgress(d, source, dest, i, done) && done <= SidecarsOps(d, source, dest)
      invariant fs.disk == Replay(d, done) && fs.faulted == old(fs.faulted)
    {
      SidecarStep(d, source, dest, i, done);
      var sourceSidecar := source + SIDECAR_SUFFIXES[i];
      var destSidecar := dest + SIDECAR_SUFFIXES[i];
      var sourceExists := sourceSidecar in fs.disk;
      var destExists := destSidecar in fs.disk;
      if sourceExists && destExists {
        return Err(AmbiguousSidecar), done;
      }
      if sourceExists {
        r := fs.RenameFile(sourceSidecar, destSidecar);
        if r.Err? {
          return;
        }
        ReplayAppend(d, done, [Rename(sourceSidecar, destSidecar)]);
        ReplayOne(Replay(d, done), Rename(sourceSidecar, destSidecar));
        done := done + [Rename(sourceSidecar, destSidecar)];
        r := fs.Prepare();
        if r.Err? {
          return;
        }
      } else {
        assert done + [] == done;
      }
    }
    r := Ok(());
  }

  /** The loop of a move: a missing source is skipped, an existing destination is an error. */
  method MoveDatabaseSidecars(fs: FileSystem, source: Path, dest: Path)
    returns (r: Result<(), Error>, ghost done: seq<Op>)
    modifies fs
    ensures done <= SidecarsOps(old(fs.disk), source, dest) && fs.disk == Replay(old(fs.disk), done)
    ensures r.Ok? ==> fs.faulted == old(fs.faulted) && !SidecarsThrow(old(fs.disk), source, dest)
    ensures r.Err? && !fs.faulted ==> r.error == DestinationExists && SidecarsThrow(old(fs.disk), source, dest)
    ensures r.Ok? || !fs.faulted ==> done == SidecarsOps(old(fs.disk), source, dest)
    ensures old(fs.faulted) ==> fs.faulted
  {
    ghost var d := fs.disk;
    done := [];
    for i := 0 to |SIDECAR_SUFFIXES|
      invariant SidecarProgress(d, source, dest, i, done) && done <= SidecarsOps(d, source, dest)
      invariant fs.disk == Replay(d, done) && fs.faulted == old(fs.faulted)
    {
      SidecarStep(d, source, dest, i, done);
      var sourceSidecar := source + SIDECAR_SUFFIXES[i];
      var destSidecar := dest + SIDECAR_SUFFIXES[i];
      if sourceSidecar !in fs.disk {
        assert done + [] == done;
        continue;
      }
      if destSidecar in fs.disk {
        return Err(DestinationExists), done;
      }
      r := fs.RenameFile(sourceSidecar, destSidecar);
      if r.Err? {
        return;
      }
      ReplayAppend(d, done, [Rename(sourceSidecar, destSidecar)]);
      ReplayOne(Replay(d, done), Rename(sourceSidecar, destSidecar));
      done := done + [Rename(sourceSidecar, destSidecar)];
      r := fs.Prepare();
      if r.Err? {
        return;
      }
    }
    r := Ok(());
  }

  method MoveDatabaseGeneration(fs: FileSystem, source: Path, dest: Path)
    returns (r: Result<(), Error>, ghost done: seq<Op>)
    modifies fs
    ensures done <= MoveGenerationOps(old(fs.disk), source, dest) && fs.disk == Replay(old(fs.disk), done)
    ensures r.Ok? ==> fs.faulted == old(fs.faulted) && done == MoveGenerationOps(old(fs.disk), source, dest)
    ensures r.Err? && !fs.faulted && source in old(fs.disk) ==>
              SidecarsThrow(Apply(old(fs.disk), Rename(source, dest)), source, dest)
    ensures old(fs.faulted) ==> fs.faulted
  {
    ghost var d := fs.disk;
    done := [];
    r := fs.RenameFile(source, dest);
    if r.Err? {
      return;
    }
    done := [Rename(source, dest)];
    ReplayOne(d, done[0]);
    r := fs.Prepare();
    if r.Err? {
      return;
    }
    ghost var sides;
    r, sides := MoveDatabaseSidecars(fs, source, dest);
    ReplayAppend(d, done, sides);
    done := done + sides;
  }

  method RecoverInterruptedRestore(fs: FileSystem, active: Path, rollback: Path)
    returns (r: Result<Recovery, Error>, ghost done: seq<Op>)
    modifies fs
    ensures done <= RecoverOps(old(fs.disk), active, rollback) && fs.disk == Replay(old(fs.disk), done)
    ensures r.Ok? ==> fs.faulted == old(fs.faulted)
    ensures r.Ok? || !fs.faulted ==>
              && r == RecoverOutcome(old(fs.disk), active, rollback)
              && done == RecoverOps(old(fs.disk), active, rollback)
    ensures old(fs.faulted) ==> fs.faulted
  {
    done := [];
    var distinct := AssertDistinctPaths(GenerationPaths(active) + GenerationPaths(rollback));
    if !distinct {
      return Err(OverlappingPaths), done;
    }
    var activeExists := active in fs.disk;
    var rollbackExists := rollback in fs.disk;
    if activeExists && rollbackExists {
      return Ok(ActivePresent), done;
    }
    if activeExists {
      var sidecars;
      sidecars, done := RestoreMissingSidecars(fs, rollback, active);
      if sidecars.Err? {
        return Err(sidecars.error), done;
      }
      return Ok(ActivePresent), done;
    }
    if !rollbackExists {
      var activeClean := AssertNoDatabaseSidecars(fs, active);
      var rollbackClean := AssertNoDatabaseSidecars(fs, rollback);
      if !activeClean || !rollbackClean {
        return Err(OrphanedSidecars), done;
      }
      return Ok(NoDatabase), done;
    }
    var prepared := fs.Prepare();
    if prepared.Err? {
      return Err(prepared.error), done;
    }
    ghost var d := fs.disk;
    var sidecars;
    sidecars, done := RestoreMissingSidecars(fs, rollback, active);
    if sidecars.Err? {
      return Err(sidecars.error), done;
    }
    assert rollback in fs.disk by {
      SidecarsRestart(d, rollback, active, |done|);
      assert done[..|done|] == done;
    }
    var moved := fs.RenameFile(rollback, active);
    if moved.Err? {
      return Err(moved.error), done;
    }
    ReplayAppend(d, done, [Rename(rollback, active)]);
    ReplayOne(Replay(d, done), Rename(rollback, active));
    done := done + [Rename(rollback, active)];
    prepared := fs.Prepare();
    if prepared.Err? {
      return Err(prepared.error), done;
    }
    return Ok(RollbackRestored), done;
  }

  /** The generation currently stored at a path. */
  function GenerationAt(d: Disk, p: Path): Generation
    requires p in d
  {
    Generation(d[p], Lookup(d, Wal(p)), Lookup(d, Shm(p)))
  }

  /** The starting condition of the crash guarantee. */
  ghost predicate SafeStart(d: Disk, n: Names) {
    && DistinctNames(n) && n.active in d && n.staging in d
    && Before(d, n, GenerationAt(d, n.active))
  }

  /** Every disk passed through is safe for the generation and the staged file of the start. */
  ghost predicate SafeRun(d: Disk, ops: seq<Op>, n: Names) {
    SafeStart(d, n) ==> SafeAlong(d, ops, n, GenerationAt(d, n.active), d[n.staging])
  }

  lemma SafeRunAppend(d: Disk, xs: seq<Op>, ys: seq<Op>, n: Names)
    requires SafeRun(d, xs, n)
    requires SafeStart(d, n) ==> SafeAlong(Replay(d, xs), ys, n, GenerationAt(d, n.active), d[n.staging])
    ensures SafeRun(d, xs + ys, n)
    ensures Replay(d, xs + ys) == Replay(Replay(d, xs), ys)
  {
    ReplayAppend(d, xs, ys);
    if SafeStart(d, n) {
      SafeAlongAppend(d, xs, ys, n, GenerationAt(d, n.active), d[n.staging]);
    }
  }

  lemma SafePrefix(d: Disk, ops: seq<Op>, done: seq<Op>, n: Names, g: Generation, f: File)
    requires SafeAlong(d, ops, n, g, f) && done <= ops
    ensures SafeAlong(d, done, n, g, f) && Safe(Replay(d, done), n, g, f)
  {
    assert done == ops[..|done|];
    SafeAtEveryPrefix(d, ops, |done|, n, g, f);
  }

  /** Recovery, tied to the guarantee: from a safe disk every prefix of what it does is safe. */
  method RecoverWithin(fs: FileSystem, n: Names, ghost d: Disk, ghost before: seq<Op>)
    returns (r: Result<Recovery, Error>, ghost done: seq<Op>)
    requires fs.disk == Replay(d, before) && SafeRun(d, before, n)
    requires SafeStart(d, n) ==> Safe(fs.disk, n, GenerationAt(d, n.active), d[n.staging])
    modifies fs
    ensures done <= RecoverOps(old(fs.disk), n.active, n.rollback)
    ensures fs.disk == Replay(old(fs.disk), done) && fs.disk == Replay(d, before + done)
    ensures SafeRun(d, before + done, n)
    ensures r.Ok? ==> fs.faulted == old(fs.faulted)
    ensures r.Ok? || !fs.faulted ==>
              && r == RecoverOutcome(old(fs.disk), n.active, n.rollback)
              && done == RecoverOps(old(fs.disk), n.active, n.rollback)
    ensures old(fs.faulted) ==> fs.faulted
  {
    ghost var start := fs.disk;
    r, done := RecoverInterruptedRestore(fs, n.active, n.rollback);
    if SafeStart(d, n) {
      var g, f := GenerationAt(d, n.active), d[n.staging];
      RecoverSafe(start, n, g, f);
      SafePrefix(start, RecoverOps(start, n.active, n.rollback), done, n, g, f);
    }
    SafeRunAppend(d, before, done, n);
  }

  /** The checks that precede any change. */
  method CheckActivation(fs: FileSystem, n: Names, expected: int, authorised: bool) returns (r: Result<(), Error>)
    modifies fs`faulted
    ensures r.Ok? ==> Precheck(fs.disk, n, expected, authorised).None? && fs.faulted == old(fs.faulted)
    ensures r.Err? && !fs.faulted ==> Precheck(fs.disk, n, expected, authorised) == Some(r.error)
    ensures old(fs.faulted) ==> fs.faulted
  {
    if expected < 0 {
      return Err(InvalidSchemaVersion);
    }
    if !authorised {
      return Err(NotConfirmed);
    }
    var distinct := AssertDistinctPaths(
      GenerationPaths(n.staging) + GenerationPaths(n.active) + GenerationPaths(n.rollback));
    if !distinct {
      return Err(OverlappingPaths);
    }
    var clean := AssertNoDatabaseSidecars(fs, n.staging);
    if !clean {
      return Err(StagedSidecars);
    }
    r := fs.ValidateDatabase(n.staging, expected);
  }

  /** The old generation is in place and complete, if the start was safe. */
  ghost predicate InPlace(d: Disk, s: Disk, n: Names) {
    SafeStart(d, n) ==> Before(s, n, GenerationAt(d, n.active))
  }

  /** The old generation is wholly at rollback and nothing is active, if the start was safe. */
  ghost predicate IsAside(d: Disk, s: Disk, n: Names) {
    SafeStart(d, n) ==>
      During(s, n, GenerationAt(d, n.active)) && !HasSidecars(s, n.active) && Lookup(s, n.staging) == Lookup(d, n.staging)
  }

  /** Nothing but the staged file is active, or nothing at all, if the start was safe. */
  ghost predicate IsSwapped(d: Disk, s: Disk, n: Names) {
    SafeStart(d, n) ==>
      || After(s, n, GenerationAt(d, n.active), d[n.staging])
      || (During(s, n, GenerationAt(d, n.active)) && !HasSidecars(s, n.active))
  }

  ghost predicate IsSafe(d: Disk, s: Disk, n: Names) {
    SafeStart(d, n) ==> Safe(s, n, GenerationAt(d, n.active), d[n.staging])
  }

  lemma ClearRollback(d: Disk, before: seq<Op>, s: Disk, done: seq<Op>, n: Names)
    requires DistinctNames(n) && n.active in s && SafeRun(d, before, n) && s == Replay(d, before)
    requires InPlace(d, s, n) && done <= RemoveOps(n.rollback)
    ensures SafeRun(d, before + done, n) && Replay(d, before + done) == Replay(s, done)
    ensures var s' := Replay(s, RemoveOps(n.rollback));
            && InPlace(d, s', n) && Lookup(s', n.staging) == Lookup(s, n.staging)
            && n.active in s' && n.rollback !in s' && !HasSidecars(s', n.rollback)
  {
    DistinctNamesUnfold(n);
    DistinctPairUnfold(n.active, n.rollback);
    RemovedAll(s, n.rollback, n.active);
    if SafeStart(d, n) {
      RemoveSafe(s, n, GenerationAt(d, n.active), d[n.staging]);
      SafePrefix(s, RemoveOps(n.rollback), done, n, GenerationAt(d, n.active), d[n.staging]);
    }
    SafeRunAppend(d, before, done, n);
  }

  lemma MoveAside(d: Disk, before: seq<Op>, s: Disk, done: seq<Op>, n: Names)
    requires DistinctNames(n) && n.active in s && SafeRun(d, before, n) && s == Replay(d, before)
    requires n.rollback !in s && !HasSidecars(s, n.rollback)
    requires InPlace(d, s, n) && Lookup(s, n.staging) == Lookup(d, n.staging)
    requires done <= MoveGenerationOps(s, n.active, n.rollback)
    ensures SafeRun(d, before + done, n) && Replay(d, before + done) == Replay(s, done)
    ensures IsSafe(d, Replay(s, done), n)
    ensures !SidecarsThrow(Apply(s, Rename(n.active, n.rollback)), n.active, n.rollback)
    ensures var s' := Replay(s, MoveGenerationOps(s, n.active, n.rollback));
            IsAside(d, s', n) && Lookup(s', n.staging) == Lookup(s, n.staging)
  {
    MoveCannotThrow(s, n);
    if SafeStart(d, n) {
      MoveGenerationSafe(s, n, GenerationAt(d, n.active), d[n.staging]);
      SafePrefix(s, MoveGenerationOps(s, n.active, n.rollback), done, n, GenerationAt(d, n.active), d[n.staging]);
    }
    SafeRunAppend(d, before, done, n);
  }

  lemma SwapIn(d: Disk, before: seq<Op>, s: Disk, n: Names)
    requires DistinctNames(n) && SafeRun(d, before, n) && s == Replay(d, before)
    requires IsAside(d, s, n)
    ensures var done := [Rename(n.staging, n.active)];
            && SafeRun(d, before + done, n) && Replay(d, before + done) == Apply(s, done[0])
            && IsSwapped(d, Apply(s, done[0]), n)
  {
    var op := Rename(n.staging, n.active);
    ReplayOne(s, op);
    if SafeStart(d, n) {
      StagedMoveSafe(s, n, GenerationAt(d, n.active), d[n.staging]);
      SafeOne(s, op, n, GenerationAt(d, n.active), d[n.staging]);
    }
    SafeRunAppend(d, before, [op], n);
  }

  lemma ClearActive(d: Disk, before: seq<Op>, s: Disk, done: seq<Op>, n: Names)
    requires DistinctNames(n) && SafeRun(d, before, n) && s == Replay(d, before)
    requires IsSwapped(d, s, n) && done <= RemoveOps(n.active)
    ensures SafeRun(d, before + done, n) && Replay(d, before + done) == Replay(s, done)
    ensures IsSafe(d, Replay(s, done), n)
  {
    if SafeStart(d, n) {
      RemoveActiveSafe(s, n, GenerationAt(d, n.active), d[n.staging]);
      SafePrefix(s, RemoveOps(n.active), done, n, GenerationAt(d, n.active), d[n.staging]);
    }
    SafeRunAppend(d, before, done, n);
  }

  /** Moving the active generation to the empty rollback path; a failed move is undone by a recovery. */
  method MoveOrRecover(fs: FileSystem, n: Names, ghost d: Disk, ghost before: seq<Op>)
    returns (r: Result<(), Error>, ghost done: seq<Op>)
    requires DistinctNames(n) && n.active in fs.disk && n.rollback !in fs.disk && !HasSidecars(fs.disk, n.rollback)
    requires fs.disk == Replay(d, before) && SafeRun(d, before, n)
    requires InPlace(d, fs.disk, n) && Lookup(fs.disk, n.staging) == Lookup(d, n.staging)
    modifies fs
    ensures fs.disk == Replay(d, before + done) && SafeRun(d, before + done, n)
    ensures r.Ok? ==>
              && fs.faulted == old(fs.faulted)
              && done == MoveGenerationOps(old(fs.disk), n.active, n.rollback)
              && Lookup(fs.disk, n.staging) == Lookup(d, n.staging)
              && IsAside(d, fs.disk, n)
    ensures r.Err? ==> fs.faulted
  {
    ghost var start := fs.disk;
    r, done := MoveDatabaseGeneration(fs, n.active, n.rollback);
    MoveAside(d, before, start, done, n);
    if r.Err? {
      ghost var part;
      var recovery;
      recovery, part := RecoverWithin(fs, n, d, before + done);
      assert before + done + part == before + (done + part);
      done := done + part;
      if recovery.Err? {
        return Err(recovery.error), done;
      }
    }
  }

  /** Clearing the rollback path and moving the active generation there; a failed move is undone. */
  method SetAside(fs: FileSystem, n: Names, ghost d: Disk, ghost before: seq<Op>)
    returns (r: Result<(), Error>, ghost done: seq<Op>)
    requires DistinctNames(n) && n.active in fs.disk
    requires fs.disk == Replay(d, before) && SafeRun(d, before, n)
    requires InPlace(d, fs.disk, n) && Lookup(fs.disk, n.staging) == Lookup(d, n.staging)
    modifies fs
    ensures fs.disk == Replay(d, before + done) && SafeRun(d, before + done, n)
    ensures r.Ok? ==>
              && fs.faulted == old(fs.faulted)
              && done == RemoveOps(n.rollback)
                         + MoveGenerationOps(Replay(old(fs.disk), RemoveOps(n.rollback)), n.active, n.rollback)
              && Lookup(fs.disk, n.staging) == Lookup(d, n.staging)
              && IsAside(d, fs.disk, n)
    ensures r.Err? ==> fs.faulted
  {
    ghost var d1 := fs.disk;
    r, done := RemoveDatabaseGeneration(fs, n.rollback);
    ClearRollback(d, before, d1, done, n);
    if r.Err? {
      return;
    }
    ghost var part;
    r, part := MoveOrRecover(fs, n, d, before + done);
    assert before + done + part == before + (done + part);
    done := done + part;
  }

  /** Undoing a failed activation. */
  method Undo(fs: FileSystem, n: Names, hadActiveDatabase: bool, ghost d: Disk, ghost before: seq<Op>)
    returns (r: Result<(), Error>, ghost done: seq<Op>)
    requires DistinctNames(n)
    requires fs.disk == Replay(d, before) && SafeRun(d, before, n) && IsSwapped(d, fs.disk, n)
    modifies fs
    ensures fs.disk == Replay(d, before + done) && SafeRun(d, before + done, n)
    ensures old(fs.faulted) ==> fs.faulted
  {
    ghost var d1 := fs.disk;
    r, done := RemoveDatabaseGeneration(fs, n.active);
    ClearActive(d, before, d1, done, n);
    if r.Ok? && hadActiveDatabase {
      var recovery;
      ghost var part;
      recovery, part := RecoverWithin(fs, n, d, before + done);
      assert before + done + part == before + (done + part);
      done := done + part;
      if recovery.Err? {
        return Err(recovery.error), done;
      }
    }
  }

  /** Renaming the staged file into place and validating it; a failure is undone. */
  method PutInPlace(fs: FileSystem, n: Names, expected: int, hadActiveDatabase: bool, ghost d: Disk, ghost before: seq<Op>)
    returns (r: Result<(), Error>, ghost done: seq<Op>)
    requires DistinctNames(n)
    requires n.staging in fs.disk && ValidFile(fs.disk[n.staging], expected)
    requires fs.disk == Replay(d, before) && SafeRun(d, before, n) && IsAside(d, fs.disk, n)
    modifies fs
    ensures fs.disk == Replay(d, before + done) && SafeRun(d, before + done, n)
    ensures r.Ok? ==> done == [Rename(n.staging, n.active)] && fs.faulted == old(fs.faulted)
    ensures r.Err? ==> fs.faulted
  {
    done := [];
    assert before + done == before;
    r := fs.RenameFile(n.staging, n.active);
    if r.Ok? {
      SwapIn(d, before, old(fs.disk), n);
      done := [Rename(n.staging, n.active)];
      r := fs.Prepare();
      if r.Ok? {
        r := fs.ValidateDatabase(n.active, expected);
      }
    }
    if r.Err? {
      var undone;
      ghost var part;
      undone, part := Undo(fs, n, hadActiveDatabase, d, before + done);
      assert before + done + part == before + (done + part);
      done := done + part;
      if undone.Err? {
        return Err(undone.error), done;
      }
    }
  }

  /** Setting the active generation aside, if there is one, and putting the staged file in its place. */
  method SwapDatabases(fs: FileSystem, n: Names, expected: int, ghost d: Disk, ghost before: seq<Op>)
    returns (r: Result<bool, Error>, ghost done: seq<Op>)
    requires DistinctNames(n) && n.staging in fs.disk && ValidFile(fs.disk[n.staging], expected)
    requires fs.disk == Replay(d, before) && SafeRun(d, before, n)
    requires InPlace(d, fs.disk, n) && Lookup(fs.disk, n.staging) == Lookup(d, n.staging)
    modifies fs
    ensures fs.disk == Replay(d, before + done) && SafeRun(d, before + done, n)
    ensures r.Ok? ==> done == SwapOps(old(fs.disk), n) && r == Ok(n.active in old(fs.disk)) && fs.faulted == old(fs.faulted)
    ensures r.Err? ==> fs.faulted
  {
    ghost var part := [];
    assert before + part == before;
    var step: Result<(), Error>;
    var hadActiveDatabase := n.active in fs.disk;
    if hadActiveDatabase {
      step, part := SetAside(fs, n, d, before);
      if step.Err? {
        return Err(step.error), part;
      }
    }
    ghost var last;
    step, last := PutInPlace(fs, n, expected, hadActiveDatabase, d, before + part);
    assert before + part + last == before + (part + last);
    done := part + last;
    if step.Err? {
      return Err(step.error), done;
    }
    return Ok(hadActiveDatabase), done;
  }

  /** Stopped after any number of the operations it did issue, compensation included, and followed by any
      series of crashed recoveries, a run is put right by the recovery that finishes: exactly the old
      generation is active, or exactly the staged file is with the old generation at rollback. */
  ghost predicate Recoverable(d: Disk, ops: seq<Op>, n: Names) {
    SafeStart(d, n) ==>
      forall crash: nat, cuts: seq<nat> | crash <= |ops| :: RecoversFrom(d, Replay(d, ops[..crash]), n, cuts)
  }

  ghost predicate RecoversFrom(d: Disk, stopped: Disk, n: Names, cuts: seq<nat>)
    requires n.active in d && n.staging in d
  {
    var g := GenerationAt(d, n.active);
    var s := CrashedRecoveries(stopped, n.active, n.rollback, cuts);
    var s' := Restore.Recovered(s, n.active, n.rollback);
    && Sound(s, n, g, d[n.staging])
    && RecoverOutcome(s, n.active, n.rollback) != Ok(NoDatabase)
    && (Holds(s', n.active, g) || After(s', n, g, d[n.staging]))
  }

  lemma SafeRunRecoverable(d: Disk, ops: seq<Op>, n: Names)
    requires SafeRun(d, ops, n)
    ensures Recoverable(d, ops, n)
  {
    if SafeStart(d, n) {
      var g, f := GenerationAt(d, n.active), d[n.staging];
      forall crash: nat, cuts: seq<nat> | crash <= |ops| ensures RecoversFrom(d, Replay(d, ops[..crash]), n, cuts) {
        SafeAtEveryPrefix(d, ops, crash, n, g, f);
        RecoveryFinishes(Replay(d, ops[..crash]), n, g, f, cuts);
      }
    }
  }

  /** The activation. Whatever fails and wherever, every disk it passes through is safe, and stopping it
      there is recoverable; when it returns normally, or nothing failed, it has issued exactly the
      operations of `ActivateOps`. */
  method ActivateStagedRestore(fs: FileSystem, n: Names, expected: int, authorised: bool)
    returns (r: Result<bool, Error>, ghost done: seq<Op>)
    modifies fs
    ensures fs.disk == Replay(old(fs.disk), done)
    ensures SafeRun(old(fs.disk), done, n) && Recoverable(old(fs.disk), done, n)
    ensures r.Ok? || !fs.faulted ==> done == ActivateOps(old(fs.disk), n, expected, authorised)
    ensures !fs.faulted ==> r == ActivateOutcome(old(fs.disk), n, expected, authorised)
    ensures r.Ok? ==> r == ActivateOutcome(old(fs.disk), n, expected, authorised)
    ensures old(fs.faulted) ==> fs.faulted
  {
    ghost var d := fs.disk;
    done := [];
    SafeRunRecoverable(d, done, n);
    var step := CheckActivation(fs, n, expected, authorised);
    if step.Err? {
      return Err(step.error), done;
    }
    DistinctNamesUnfold(n);
    var recovery;
    recovery, done := RecoverWithin(fs, n, d, []);
    assert [] + done == done;
    SafeRunRecoverable(d, done, n);
    if recovery.Err? {
      return Err(recovery.error), done;
    }
    StagingUntouched(d, n);
    if SafeStart(d, n) {
      RecoverSafe(d, n, GenerationAt(d, n.active), d[n.staging]);
    }
    step := fs.Prepare();
    if step.Err? {
      return Err(step.error), done;
    }
    ghost var swap;
    r, swap := SwapDatabases(fs, n, expected, d, done);
    done := done + swap;
    SafeRunRecoverable(d, done, n);
  }

  /** The result when no call fails: whether a previous database was set aside. */
  function ActivateOutcome(d: Disk, n: Names, expected: int, authorised: bool): Result<bool, Error> {
    match Precheck(d, n, expected, authorised)
    case Some(e) => Err(e)
    case None =>
      match RecoverOutcome(d, n.active, n.rollback)
      case Err(e) => Err(e)
      case Ok(_) => Ok(n.active in Recovered(d, n.active, n.rollback))
  }

  /** An activation answers, when nothing fails, exactly whether there was a database to set aside: an active
      main file, or one at rollback that recovery put back first. */
  lemma OutcomeExactly(d: Disk, n: Names, expected: int, authorised: bool)
    ensures ActivateOutcome(d, n, expected, authorised).Ok? <==>
              Precheck(d, n, expected, authorised).None? && RecoverOutcome(d, n.active, n.rollback).Ok?
    ensures ActivateOutcome(d, n, expected, authorised).Ok? ==>
              ActivateOutcome(d, n, expected, authorised) == Ok(n.active in d || n.rollback in d)
  {
    if ActivateOutcome(d, n, expected, authorised).Ok? {
      DistinctNamesUnfold(n);
      RecoverLeaves(d, n.active, n.rollback);
    }
  }

  /** Recovery never touches the staged file. */
  lemma StagingUntouched(d: Disk, n: Names)
    requires DistinctNames(n)
    ensures Lookup(Recovered(d, n.active, n.rollback), n.staging) == Lookup(d, n.staging)
  {
    DistinctNamesUnfold(n);
    DistinctPairUnfold(n.active, n.rollback);
    SidecarsKeep(d, n.rollback, n.active, n.staging);
    ReplayAppend(d, SidecarsOps(d, n.rollback, n.active), [Rename(n.rollback, n.active)]);
    ReplayOne(Replay(d, SidecarsOps(d, n.rollback, n.active)), Rename(n.rollback, n.active));
  }

  lemma SidecarsKeep(d: Disk, source: Path, dest: Path, p: Path)
    requires DistinctPair(dest, source)
    requires p !in {Wal(source), Shm(source), Wal(dest), Shm(dest)}
    ensures Lookup(Replay(d, SidecarsOps(d, source, dest)), p) == Lookup(d, p)
  {
    DistinctPairUnfold(dest, source);
    if !Ambiguous(d, Wal(source), Wal(dest)) {
      var first := SidecarOps(d, Wal(source), Wal(dest));
      var d1 := Replay(d, first);
      SidecarMoved(d, Wal(source), Wal(dest));
      if !Ambiguous(d1, Shm(source), Shm(dest)) {
        SidecarMoved(d1, Shm(source), Shm(dest));
        ReplayAppend(d, first, SidecarOps(d1, Shm(source), Shm(dest)));
      }
    }
  }

  lemma RemovedAll(d: Disk, removed: Path, other: Path)
    requires DistinctPair(other, removed)
    ensures Replay(d, RemoveOps(removed)) == d - {removed, Wal(removed), Shm(removed)}
  {
    var ops := RemoveOps(removed);
    assert ops[1..] == [ops[1], ops[2]] && ops[1..][1..] == [ops[2]] && ops[1..][1..][1..] == [];
    var d1 := Apply(d, ops[0]);
    var d2 := Apply(d1, ops[1]);
    assert Replay(d2, [ops[2]]) == Apply(d2, ops[2]);
    assert Replay(d1, [ops[1], ops[2]]) == Apply(d2, ops[2]);
  }

  /** With the rollback path empty, moving the active generation there meets no existing file. */
  lemma MoveCannotThrow(d: Disk, n: Names)
    requires DistinctNames(n) && n.active in d && n.rollback !in d && !HasSidecars(d, n.rollback)
    ensures !SidecarsThrow(Apply(d, Rename(n.active, n.rollback)), n.active, n.rollback)
    ensures Lookup(Replay(d, MoveGenerationOps(d, n.active, n.rollback)), n.staging) == Lookup(d, n.staging)
  {
    DistinctNamesUnfold(n);
    DistinctPairUnfold(n.active, n.rollback);
    var d1 := Apply(d, Rename(n.active, n.rollback));
    SidecarMoved(d1, Wal(n.active), Wal(n.rollback));
    SidecarsKeep(d1, n.active, n.rollback, n.staging);
    ReplayOne(d, Rename(n.active, n.rollback));
    ReplayAppend(d, [Rename(n.active, n.rollback)], SidecarsOps(d1, n.active, n.rollback));
  }
}
