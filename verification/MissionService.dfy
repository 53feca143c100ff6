/** The mission repository's own code over its four maps, proved against the specification. */
module MissionService {
  import opened Common
  import opened Missions

  class MissionRepository {
    var missions: map<MissionId, Mission>
    var byKey: map<string, MissionId>
    var bySource: map<string, MissionId>
    var byThread: map<string, MissionId>

    ghost function View(): Repository
      reads this
    {
      Repository(missions, byKey, bySource, byThread)
    }

    constructor ()
      ensures View() == Empty()
    {
      missions, byKey, bySource, byThread := map[], map[], map[], map[];
    }

    /** The index entries for a binding, as a set; an empty id counts as none. */
    method ResolveExisting(b: Binding) returns (candidates: set<MissionId>)
      ensures forall id :: id in candidates <==> Candidate(View(), b, id)
    {
      candidates := {};
      if b.key in byKey && byKey[b.key] != "" {
        candidates := candidates + {byKey[b.key]};
      }
      if b.source in bySource && bySource[b.source] != "" {
        candidates := candidates + {bySource[b.source]};
      }
      if b.thread in byThread && byThread[b.thread] != "" {
        candidates := candidates + {byThread[b.thread]};
      }
    }

    /** Fills the indexes one after the other and throws at the first duplicate. */
    method InsertMission(m: Mission) returns (failed: Option<MissionError>)
      modifies this
      ensures (View(), failed) == Insert(old(View()), m)
    {
      var b := m.binding;
      if b.id in missions {
        return Some(DuplicateMission);
      }
      if b.key in byKey {
        return Some(DuplicateBinding);
      }
      byKey := byKey[b.key := b.id];
      if b.source in bySource {
        return Some(DuplicateBinding);
      }
      bySource := bySource[b.source := b.id];
      if b.thread in byThread {
        return Some(DuplicateBinding);
      }
      byThread := byThread[b.thread := b.id];
      missions := missions[b.id := m];
      return None;
    }

    method PromoteMission(b: Binding, capture: Evidence) returns (r: Result<Mission, MissionError>)
      modifies this
      ensures (View(), r) == Promote(old(View()), b, capture)
    {
      if capture.kind != CaptureKind {
        return Err(CaptureRequired);
      }
      var candidates := ResolveExisting(b);
      if candidates != {} {
        var id :| id in candidates;
        assert Candidate(View(), b, id);
        var others := candidates - {id};
        if others != {} {
          var other :| other in others;
          assert Candidate(View(), b, other);
          return Err(IndexesDisagree);
        }
        forall x | Candidate(View(), b, x) ensures x == id {
          assert x !in others;
        }
        if id !in missions {
          return Err(UnknownMission);
        }
        if missions[id].binding != b {
          return Err(BoundDifferently);
        }
        return Ok(missions[id]);
      }
      var mission := NewMission(b, capture);
      var invalid := Validate(mission);
      if invalid.Some? {
        return Err(invalid.value);
      }
      var failed := InsertMission(mission);
      return if failed.Some? then Err(failed.value) else Ok(mission);
    }

    method TransitionMission(id: MissionId, t: Move) returns (r: Result<Mission, MissionError>)
      modifies this`missions
      ensures (View(), r) == Transition(old(View()), id, t)
    {
      if id !in missions {
        return Err(UnknownMission);
      }
      var current := missions[id];
      if t.state !in AllowedTransitions(current.state) {
        return Err(IllegalTransition);
      }
      if t.evidence.None? || t.evidence.value.kind != RequiredEvidence(current.state, t.state) {
        return Err(FreshEvidenceRequired);
      }
      var next := Moved(current, t);
      var invalid := Validate(next);
      if invalid.Some? {
        return Err(invalid.value);
      }
      missions := missions[id := next];
      return Ok(next);
    }

    /** Every mission once; the order is left open. */
    method Snapshot() returns (snapshot: seq<Mission>)
      requires RepositoryOk(View())
      ensures Lists(View(), snapshot)
    {
      snapshot := [];
      var rest := missions.Keys;
      while rest != {}
        invariant rest <= missions.Keys
        invariant ListsOnce(View(), snapshot)
        invariant forall id :: id in missions ==> (id in rest <==> !Listed(snapshot, id))
        decreases |rest|
      {
        var id :| id in rest;
        assert StoredOk(View(), id);
        ghost var before := snapshot;
        rest := rest - {id};
        snapshot := snapshot + [missions[id]];
        AppendListed(before, missions[id]);
      }
    }

    lemma AppendListed(before: seq<Mission>, m: Mission)
      ensures forall id :: Listed(before + [m], id) <==> Listed(before, id) || id == m.binding.id
    {
      forall id ensures Listed(before + [m], id) <==> Listed(before, id) || id == m.binding.id {
        var after := before + [m];
        assert after[|before|] == m;
        if i :| 0 <= i < |before| && before[i].binding.id == id {
          assert after[i].binding.id == id;
        }
      }
    }

    /** Rebuilds an empty repository record by record; it stops at the first invalid or clashing one. */
    method Load(version: int, snapshot: seq<Mission>) returns (failed: Option<MissionError>)
      requires View() == Empty()
      modifies this
      ensures failed.None? <==> FromSnapshot(version, snapshot).Ok?
      ensures failed.None? ==> FromSnapshot(version, snapshot) == Ok(View())
      ensures failed.Some? ==> FromSnapshot(version, snapshot) == Err(failed.value)
    {
      if version != 1 {
        return Some(BadVersion);
      }
      var i := 0;
      while i < |snapshot|
        invariant 0 <= i <= |snapshot|
        invariant Rebuild(View(), snapshot[i..]) == FromSnapshot(version, snapshot)
      {
        assert snapshot[i..][0] == snapshot[i] && snapshot[i..][1..] == snapshot[i + 1..];
        var invalid := Validate(snapshot[i]);
        if invalid.Some? {
          return invalid;
        }
        failed := InsertMission(snapshot[i]);
        if failed.Some? {
          return;
        }
        i := i + 1;
      }
      return None;
    }
  }
}
