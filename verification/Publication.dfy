/** Publishing an artifact directory: stage, flush, exchange, make the exchange durable, and only
    then delete the old tree. */
module Publication {
  import opened Wrappers
  import opened PayloadTree
  import opened DurableVolume

  /** What the error message of a failed commit reports. */
  datatype Report = NotCommitted | DurabilityUncertain | CleanupFailed

  datatype Outcome = Published | NotEntered | Failed(report: Report)

  // ---- crash safety -----------------------------------------------------------------

  /** Every crash in state `s` leaves the target as some crash at the start could have left it, or
      leading to exactly the new payload. */
  ghost predicate Safe(start: Snapshot, s: Snapshot, payload: Content) {
    forall found :: CrashTarget(s, found) ==> CrashTarget(start, found) || found == Some(payload)
  }

  /** Every crash leaves the target leading to exactly the new payload. */
  ghost predicate OnlyNew(s: Snapshot, payload: Content) {
    forall found :: CrashTarget(s, found) ==> found == Some(payload)
  }

  /** The staged tree is complete on disk. */
  predicate Flushed(s: Snapshot, staged: TreeId, payload: Content) {
    staged in s.trees && Durable(s.trees[staged]) && ContentOf(s.trees[staged]) == payload
  }

  /** The target points at the staged tree, but that change of names may still be lost. */
  predicate Installed(start: Snapshot, s: Snapshot, staged: TreeId, c: Change) {
    && s.onDisk == start.onDisk && s.pending == start.pending + [c]
    && Target in c && c[Target] == Some(staged)
    && start.trees.Keys <= s.trees.Keys
    && forall t | t in start.trees && t != staged :: s.trees[t] == start.trees[t]
  }

  /** Nothing on disk or pending names any other tree as the target. */
  predicate Secured(s: Snapshot, staged: TreeId) {
    Candidates(s) == {Some(staged)}
  }

  /** No crash can leave the target leading to `staged`, and every tree it can lead to exists. */
  predicate Unpublished(s: Snapshot, staged: TreeId) {
    && staged in s.trees && s.trees[staged].Dir?
    && Some(staged) !in Candidates(s)
    && forall id | id in Candidates(s) && id.Some? :: id.value in s.trees
  }

  lemma {:induction false} CandidatesIgnoreTrees(s: Snapshot, s': Snapshot)
    requires s'.onDisk == s.onDisk && s'.pending == s.pending
    ensures Candidates(s') == Candidates(s)
    decreases |s.pending|
  {
    if s.pending != [] {
      var n := |s.pending| - 1;
      CandidatesIgnoreTrees(s.(pending := s.pending[..n]), s'.(pending := s'.pending[..n]));
    }
  }

  /** Work on a tree that no crash can reach through the target is invisible. */
  lemma StagingIsInvisible(start: Snapshot, s: Snapshot, staged: TreeId, payload: Content)
    requires Unpublished(start, staged) && OnlyTreeChanged(start, s, staged)
    ensures Safe(start, s, payload)
  {
    CandidatesIgnoreTrees(start, s);
    forall found | CrashTarget(s, found) ensures CrashTarget(start, found) {
      CrashTargetIsCandidate(s, found);
      CrashTargetIsCandidate(start, found);
    }
  }

  lemma InstalledNames(start: Snapshot, s: Snapshot, staged: TreeId, c: Change)
    requires Installed(start, s, staged, c)
    ensures Candidates(s) == Candidates(start) + {Some(staged)}
    ensures Lookup(Current(s), Target) == Some(staged)
    ensures Current(s) == Apply(Current(start), c)
  {
    CandidatesIgnoreTrees(start, start.(trees := s.trees));
    ChangeAddsCandidate(start.(trees := s.trees), c);
    assert start.(trees := s.trees).(pending := start.pending + [c]) == s;
  }

  /** An old tree is as it was, the new one complete. */
  lemma InstalledLeads(start: Snapshot, s: Snapshot, staged: TreeId, c: Change, payload: Content,
                       id: Option<TreeId>, found: Option<Content>)
    requires Unpublished(start, staged) && Installed(start, s, staged, c) && Flushed(s, staged, payload)
    requires id in Candidates(start) + {Some(staged)} && Leads(s.trees, id, found)
    ensures found == Some(payload) || (id in Candidates(start) && Leads(start.trees, id, found))
  {
    if id == Some(staged) {
      DurableSurvives(s.trees[staged], found.value);
    }
  }

  lemma InstalledIsSafe(start: Snapshot, s: Snapshot, staged: TreeId, c: Change, payload: Content)
    requires Unpublished(start, staged) && Installed(start, s, staged, c) && Flushed(s, staged, payload)
    ensures Safe(start, s, payload)
    ensures Candidates(s) == Candidates(start) + {Some(staged)}
    ensures Lookup(Current(s), Target) == Some(staged)
    ensures Current(s) == Apply(Current(start), c)
  {
    InstalledNames(start, s, staged, c);
    forall found | CrashTarget(s, found) ensures CrashTarget(start, found) || found == Some(payload) {
      CrashTargetIsCandidate(s, found);
      CrashTargetIsCandidate(start, found);
      var id :| id in Candidates(s) && Leads(s.trees, id, found);
      InstalledLeads(start, s, staged, c, payload, id, found);
    }
  }

  /** Without the flush the same change of names is not safe: some crash leaves the target leading
      to a tree that is not the payload. */
  lemma UnflushedIsUnsafe(start: Snapshot, s: Snapshot, staged: TreeId, c: Change) returns (found: Content)
    requires Unpublished(start, staged) && Installed(start, s, staged, c)
    requires staged in s.trees && !Durable(s.trees[staged])
    ensures CrashTarget(s, Some(found)) && found != ContentOf(s.trees[staged])
  {
    found := OnlyDurableSurvives(s.trees[staged]);
    ChangeAddsCandidate(start.(trees := s.trees), c);
    assert start.(trees := s.trees).(pending := start.pending + [c]) == s;
    CrashTargetIsCandidate(s, Some(found));
  }

  lemma SecuredIsNew(s: Snapshot, staged: TreeId, payload: Content)
    requires Secured(s, staged) && Flushed(s, staged, payload)
    ensures OnlyNew(s, payload)
    ensures Lookup(Current(s), Target) == Some(staged)
  {
    CurrentIsCandidate(s);
    forall found | CrashTarget(s, found) ensures found == Some(payload) {
      CrashTargetIsCandidate(s, found);
      DurableSurvives(s.trees[staged], found.value);
    }
  }

  /** Crashes leave the target where they could have left it before, and its trees untouched. */
  predicate SameTarget(start: Snapshot, s: Snapshot) {
    && Candidates(s) == Candidates(start)
    && (forall id | id in Candidates(start) && id.Some? && id.value in start.trees ::
          id.value in s.trees && s.trees[id.value] == start.trees[id.value])
  }

  lemma SameTargetSameCrashes(start: Snapshot, s: Snapshot, found: Option<Content>)
    requires SameTarget(start, s) && CrashTarget(s, found)
    ensures CrashTarget(start, found)
  {
    CrashTargetIsCandidate(s, found);
    CrashTargetIsCandidate(start, found);
  }

  /** Safety reaches across steps that leave the target alone, before and after. */
  lemma SafeAround(start: Snapshot, before: Snapshot, after: Snapshot, s: Snapshot, payload: Content)
    requires SameTarget(start, before) && Safe(before, after, payload) && SameTarget(after, s)
    ensures Safe(start, s, payload)
  {
    forall found | CrashTarget(s, found) ensures CrashTarget(start, found) || found == Some(payload) {
      SameTargetSameCrashes(after, s, found);
      if found != Some(payload) {
        SameTargetSameCrashes(start, before, found);
      }
    }
  }

  lemma OnlyNewStays(s: Snapshot, s': Snapshot, payload: Content)
    requires OnlyNew(s, payload) && SameTarget(s, s')
    ensures OnlyNew(s', payload)
  {
    forall found | CrashTarget(s', found) ensures found == Some(payload) {
      SameTargetSameCrashes(s, s', found);
    }
  }

  /** Before publication the names were durable, and the old tree, if any, completely flushed. */
  predicate AtRest(s: Snapshot) {
    && s.pending == []
    && (Target in s.onDisk ==> s.onDisk[Target] in s.trees && Durable(s.trees[s.onDisk[Target]]))
  }

  /** What the target leads to in a state at rest. */
  function Found(s: Snapshot): Option<Content>
    requires AtRest(s)
  {
    if Target in s.onDisk then Some(ContentOf(s.trees[s.onDisk[Target]])) else None
  }

  /** Then a safe state comes back from a crash with the whole old tree (nothing if there was none)
      or the whole new one, and never with a mixture. */
  lemma SafeLeavesWholeTrees(start: Snapshot, s: Snapshot, payload: Content, found: Option<Content>)
    requires AtRest(start) && Safe(start, s, payload) && CrashTarget(s, found)
    ensures found == Found(start) || found == Some(payload)
  {
    if CrashTarget(start, found) {
      CrashTargetIsCandidate(start, found);
      if Target in start.onDisk && found.Some? {
        DurableSurvives(start.trees[start.onDisk[Target]], found.value);
      }
    }
  }

  lemma {:induction false} SameNames(start: Snapshot, s: Snapshot)
    requires s.onDisk == start.onDisk && s.pending == start.pending
    ensures Current(s) == Current(start)
  {
  }

  /** A tree that nothing names yet, and then a new name for it beside the target. */
  lemma NewTree(start: Snapshot, made: Snapshot, id: TreeId, n: Node)
    requires id !in start.trees && made == start.(trees := start.trees[id := n])
    ensures SameTarget(start, made) && Current(made) == Current(start)
  {
    CandidatesIgnoreTrees(start, made);
    SameNames(start, made);
  }

  lemma NewName(start: Snapshot, made: Snapshot, named: Snapshot, slot: Slot, id: TreeId)
    requires SameTarget(start, made) && slot != Target
    requires named == made.(pending := made.pending + [map[slot := Some(id)]])
    ensures SameTarget(start, named) && Current(named) == Current(made)[slot := id]
  {
    ChangeAddsCandidate(made, map[slot := Some(id)]);
    assert Apply(Current(made), map[slot := Some(id)]) == Current(made)[slot := id];
  }

  lemma UnpublishedRemoval(start: Snapshot, s: Snapshot, staged: TreeId)
    requires Unpublished(start, staged) && OnlyTreeChanged(start, s, staged)
    ensures SameTarget(start, s)
  {
    CandidatesIgnoreTrees(start, s);
  }

  // ---- the publisher ----------------------------------------------------------------

  ghost predicate AllSafe(start: Snapshot, trail: seq<Snapshot>, from: nat, payload: Content) {
    forall i | from <= i < |trail| :: Safe(start, trail[i], payload)
  }

  /** A tree number that is not in use. */
  lemma SomeTreeIsNew(trees: map<TreeId, Node>)
    ensures exists id: TreeId :: id !in trees
  {
    var bound := BoundOf(trees.Keys);
    assert bound !in trees;
  }

  lemma {:induction false} BoundOf(ids: set<TreeId>) returns (bound: TreeId)
    ensures forall id | id in ids :: id < bound
    decreases |ids|
  {
    bound := 0;
    if id :| id in ids {
      var rest := BoundOf(ids - {id});
      bound := rest + id + 1;
      assert forall x | x in ids :: x == id || x in ids - {id};
    }
  }

  method NewTreeId(trees: map<TreeId, Node>) returns (id: TreeId)
    ensures id !in trees
  {
    SomeTreeIsNew(trees);
    id :| id !in trees;
  }

  function NameOf(slot: Option<Slot>): set<Slot> { if slot.Some? then {slot.value} else {} }

  /** The writer lock, as long as it is the file that was created. */
  function LockName(names: Names, tree: Option<TreeId>): set<Slot> {
    if tree.Some? && WriterLock in names && names[WriterLock] == tree.value then {WriterLock} else {}
  }

  lemma RemovedName(names: Names, slot: Slot)
    ensures Apply(names, map[slot := None]) == names - {slot}
  {
  }

  /** An entry that fails after all removes the names it made. */
  lemma EntryUndone(names: Names, locked: Names, made: Names, lock: TreeId, staging: Option<Slot>)
    requires WriterLock !in names && locked == names[WriterLock := lock]
    requires staging.None? ==> made == locked
    requires staging.Some? ==> staging.value.Staging? && staging.value !in locked && staging.value in made
                               && made == locked[staging.value := made[staging.value]]
    ensures made - NameOf(staging) - LockName(made, Some(lock)) == names
  {
    assert made - NameOf(staging) == locked;
  }

  /** Entering is possible: no target that must be kept, no other writer, and a free name. */
  predicate CanEnter(names: Names, overwrite: bool, tokens: seq<nat>) {
    && (Target in names ==> overwrite) && WriterLock !in names
    && exists x :: x in tokens && Staging(x) !in names
  }

  class AtomicDirectoryPublisher {
    const volume: Volume
    const overwrite: bool
    var staging: Option<Slot>
    var backup: Option<Slot>
    var committed: bool
    var durabilityConfirmed: bool
    var lockTree: Option<TreeId>

    constructor (volume: Volume, overwrite: bool)
      ensures this.volume == volume && this.overwrite == overwrite
      ensures staging.None? && backup.None? && !committed && !durabilityConfirmed && lockTree.None?
    {
      this.volume, this.overwrite := volume, overwrite;
      staging, backup, lockTree, committed, durabilityConfirmed := None, None, None, false, false;
    }

    /** What holds between `__enter__` and `commit`. */
    ghost predicate Entered()
      reads this, volume
    {
      && staging.Some? && staging.value.Staging? && backup.None? && !committed && !durabilityConfirmed
      && staging.value in Current(volume.state)
      && Unpublished(volume.state, StagedTree())
    }

    ghost function StagedTree(): TreeId
      requires staging.Some?
      reads this, volume
    {
      if staging.value in Current(volume.state) then Current(volume.state)[staging.value] else 0
    }

    /** A hook, or a check of the parent, that may raise. */
    method Checkpoint() returns (ok: bool)
      ensures !volume.faulty ==> ok
    {
      var failed := SyscallFails(volume.faulty);
      ok := !failed;
    }

    /** A new tree under a name that is free. */
    method CreateNew(slot: Slot, n: Node) returns (ok: bool, id: TreeId)
      requires slot != Target
      modifies volume
      ensures |old(volume.trail)| <= |volume.trail| && volume.trail[..|old(volume.trail)|] == old(volume.trail)
      ensures forall i | |old(volume.trail)| <= i < |volume.trail| :: SameTarget(old(volume.state), volume.trail[i])
      ensures SameTarget(old(volume.state), volume.state)
      ensures id !in old(volume.state).trees && volume.state.trees == old(volume.state).trees[id := n]
      ensures ok ==> Current(volume.state) == Current(old(volume.state))[slot := id]
      ensures !ok ==> Current(volume.state) == Current(old(volume.state))
      ensures !volume.faulty ==> ok
    {
      id := NewTreeId(volume.state.trees);
      ghost var start := volume.state;
      volume.WriteTree(id, n);
      ghost var made := volume.state;
      NewTree(start, made, id, n);
      ok := volume.Rename(map[slot := Some(id)]);
      if ok {
        NewName(start, made, volume.state, slot, id);
      }
    }

    /** `mkdir` or exclusive creation of an entry; `taken` tells that the name was in use. */
    method Create(slot: Slot, n: Node) returns (ok: bool, taken: bool, id: TreeId)
      requires slot != Target
      modifies volume
      ensures |old(volume.trail)| <= |volume.trail| && volume.trail[..|old(volume.trail)|] == old(volume.trail)
      ensures forall i | |old(volume.trail)| <= i < |volume.trail| :: SameTarget(old(volume.state), volume.trail[i])
      ensures SameTarget(old(volume.state), volume.state)
      ensures taken <==> slot in Current(old(volume.state))
      ensures taken ==> !ok && volume.state == old(volume.state) && volume.trail == old(volume.trail)
      ensures ok ==> id !in old(volume.state).trees
                     && Current(volume.state) == Current(old(volume.state))[slot := id]
                     && volume.state.trees == old(volume.state).trees[id := n]
      ensures !ok ==> Current(volume.state) == Current(old(volume.state))
      ensures !volume.faulty ==> ok || taken
    {
      ok, taken, id := false, slot in Current(volume.state), 0;
      if !taken {
        ok, id := CreateNew(slot, n);
      }
    }

    /** `__enter__`, below the lease: refuse an existing target unless it may be overwritten, take
        the writer lock file, and make a staging directory under one of the random names. */
    method Enter(tokens: seq<nat>) returns (ok: bool)
      requires |tokens| == 128
      requires staging.None? && backup.None? && !committed && !durabilityConfirmed && lockTree.None?
      requires forall id | id in Candidates(volume.state) && id.Some? :: id.value in volume.state.trees
      modifies this, volume
      ensures |old(volume.trail)| <= |volume.trail| && volume.trail[..|old(volume.trail)|] == old(volume.trail)
      ensures forall i | |old(volume.trail)| <= i < |volume.trail| :: SameTarget(old(volume.state), volume.trail[i])
      ensures SameTarget(old(volume.state), volume.state)
      ensures ok ==> Entered() && lockTree.Some?
                     && Current(volume.state) == Current(old(volume.state))[WriterLock := lockTree.value][staging.value := StagedTree()]
      ensures ok ==> CanEnter(Current(old(volume.state)), overwrite, tokens) && staging.value !in Current(old(volume.state))
      ensures !ok ==> backup.None? && !committed && !durabilityConfirmed && lockTree.None?
      ensures !volume.faulty ==> (ok <==> CanEnter(Current(old(volume.state)), overwrite, tokens))
      ensures !volume.faulty && !ok ==> staging.None? && Current(volume.state) == Current(old(volume.state))
    {
      ok := Checkpoint();
      if !ok || (Target in Current(volume.state) && !overwrite) {
        return false;
      }
      var id: TreeId, taken: bool;
      ok, taken, id := Create(WriterLock, File(0, 0, false));
      if !ok {
        return;
      }
      lockTree := Some(id);
      ok := Stage(tokens, Current(old(volume.state)));
    }

    /** Below the writer lock: the staging directory, or everything back as it was. */
    method Stage(tokens: seq<nat>, ghost names: Names) returns (ok: bool)
      requires staging.None? && backup.None? && !committed && !durabilityConfirmed && lockTree.Some?
      requires WriterLock !in names && Current(volume.state) == names[WriterLock := lockTree.value]
      requires forall id | id in Candidates(volume.state) && id.Some? :: id.value in volume.state.trees
      modifies this, volume
      ensures |old(volume.trail)| <= |volume.trail| && volume.trail[..|old(volume.trail)|] == old(volume.trail)
      ensures forall i | |old(volume.trail)| <= i < |volume.trail| :: SameTarget(old(volume.state), volume.trail[i])
      ensures SameTarget(old(volume.state), volume.state)
      ensures ok ==> Entered() && lockTree == old(lockTree) && staging.value.token in tokens && staging.value !in names
                     && Current(volume.state) == names[WriterLock := lockTree.value][staging.value := StagedTree()]
      ensures !ok ==> backup.None? && !committed && !durabilityConfirmed && lockTree.None?
      ensures !volume.faulty && !ok ==> staging.None? && Current(volume.state) == names
                                        && forall x | x in tokens :: Staging(x) in names
    {
      ghost var locked := Current(volume.state);
      ghost var lock := lockTree.value;
      ok := MakeStaging(tokens);
      if ok {
        ok := Checkpoint();
      }
      if !ok {
        ghost var slot, made := staging, Current(volume.state);
        var clean := Exit();
        if clean && (slot.Some? || made == locked) {
          EntryUndone(names, locked, made, lock, slot);
        }
      }
    }

    /** A staging directory under the first of the names that is free. */
    method MakeStaging(tokens: seq<nat>) returns (ok: bool)
      requires staging.None?
      requires forall id | id in Candidates(volume.state) && id.Some? :: id.value in volume.state.trees
      modifies this`staging, volume
      ensures |old(volume.trail)| <= |volume.trail| && volume.trail[..|old(volume.trail)|] == old(volume.trail)
      ensures forall i | |old(volume.trail)| <= i < |volume.trail| :: SameTarget(old(volume.state), volume.trail[i])
      ensures SameTarget(old(volume.state), volume.state)
      ensures ok ==> staging.Some? && staging.value.Staging? && staging.value in Current(volume.state)
                     && Unpublished(volume.state, Current(volume.state)[staging.value])
                     && staging.value !in Current(old(volume.state)) && staging.value.token in tokens
                     && Current(volume.state) == Current(old(volume.state))[staging.value := Current(volume.state)[staging.value]]
      ensures !ok ==> staging.None?
      ensures !volume.faulty && !ok ==> volume.state == old(volume.state)
                                        && forall x | x in tokens :: Staging(x) in Current(old(volume.state))
    {
      for i := 0 to |tokens|
        invariant volume.state == old(volume.state) && volume.trail == old(volume.trail) && staging.None?
        invariant forall j | 0 <= j < i :: Staging(tokens[j]) in Current(volume.state)
      {
        var id: TreeId, taken: bool;
        ok, taken, id := Create(Staging(tokens[i]), Dir(0, [], false));
        if ok {
          staging := Some(Staging(tokens[i]));
        }
        if !taken {
          return;
        }
      }
      ok := false;
    }

    /** Remove the staging directory, if there still is one. */
    method RemoveStaging() returns (clean: bool)
      requires staging.Some? ==> staging.value.Staging? && staging.value in Current(volume.state)
                                 && Unpublished(volume.state, Current(volume.state)[staging.value])
      modifies this`staging, volume
      ensures |old(volume.trail)| <= |volume.trail| && volume.trail[..|old(volume.trail)|] == old(volume.trail)
      ensures forall i | |old(volume.trail)| <= i < |volume.trail| :: SameTarget(old(volume.state), volume.trail[i])
      ensures SameTarget(old(volume.state), volume.state)
      ensures Lookup(Current(volume.state), Target) == Lookup(Current(old(volume.state)), Target)
      ensures clean ==> staging.None?
      ensures clean ==> Current(volume.state) == Current(old(volume.state)) - NameOf(old(staging))
      ensures !volume.faulty ==> clean
    {
      clean := true;
      if staging.None? {
        return;
      }
      ghost var start := volume.state;
      ghost var id := Current(start)[staging.value];
      clean := volume.RemoveTree(staging.value);
      forall i | |old(volume.trail)| <= i < |volume.trail| - 1 ensures SameTarget(start, volume.trail[i]) {
        UnpublishedRemoval(start, volume.trail[i], id);
      }
      ghost var named := volume.state.(pending := start.pending);
      UnpublishedRemoval(start, named, id);
      SameNames(start, named);
      if clean {
        ChangeAddsCandidate(named, map[staging.value := None]);
        assert named.(pending := start.pending + [map[staging.value := None]]) == volume.state;
        RemovedName(Current(named), staging.value);
        staging := None;
      } else {
        assert named == volume.state;
      }
    }

    /** Give the writer lock back if the file is still the one created. */
    method ReleaseLock() returns (clean: bool)
      modifies this`lockTree, volume
      ensures lockTree.None?
      ensures clean ==> Current(volume.state) == Current(old(volume.state)) - LockName(Current(old(volume.state)), old(lockTree))
      ensures !volume.faulty ==> clean
      ensures |old(volume.trail)| <= |volume.trail| && volume.trail[..|old(volume.trail)|] == old(volume.trail)
      ensures forall i | |old(volume.trail)| <= i < |volume.trail| :: SameTarget(old(volume.state), volume.trail[i])
      ensures SameTarget(old(volume.state), volume.state)
      ensures Lookup(Current(volume.state), Target) == Lookup(Current(old(volume.state)), Target)
    {
      clean := true;
      ghost var start := volume.state;
      if lockTree.Some? && WriterLock in Current(volume.state) && Current(volume.state)[WriterLock] == lockTree.value {
        clean := volume.Rename(map[WriterLock := None]);
        ChangeAddsCandidate(start, map[WriterLock := None]);
        RemovedName(Current(start), WriterLock);
      }
      lockTree := None;
    }

    /** `__exit__`: remove what was staged and not published, and give the writer lock back.  The
        target is not touched. */
    method Exit() returns (clean: bool)
      requires staging.Some? ==> staging.value.Staging? && staging.value in Current(volume.state)
                                 && Unpublished(volume.state, Current(volume.state)[staging.value])
      requires backup.Some? ==> committed
      modifies this, volume
      ensures |old(volume.trail)| <= |volume.trail| && volume.trail[..|old(volume.trail)|] == old(volume.trail)
      ensures forall i | |old(volume.trail)| <= i < |volume.trail| :: SameTarget(old(volume.state), volume.trail[i])
      ensures SameTarget(old(volume.state), volume.state)
      ensures Lookup(Current(volume.state), Target) == Lookup(Current(old(volume.state)), Target)
      ensures lockTree.None? && backup == old(backup)
      ensures clean ==> staging.None?
      ensures clean ==> Current(volume.state) == Current(old(volume.state)) - NameOf(old(staging))
                                                 - LockName(Current(old(volume.state)), old(lockTree))
      ensures !volume.faulty ==> clean
      ensures committed == old(committed) && durabilityConfirmed == old(durabilityConfirmed)
    {
      clean := RemoveStaging();
      var released := ReleaseLock();
      clean := clean && released;
    }

    /** Flush the staged payload; nothing is published yet. */
    method Prepare(ghost start: Snapshot, ghost payload: Content) returns (ok: bool)
      requires Entered() && start == volume.state && payload == ContentOf(start.trees[StagedTree()])
      modifies volume
      ensures OnlyTreeChanged(start, volume.state, old(StagedTree())) && Unpublished(volume.state, old(StagedTree()))
      ensures ok ==> Flushed(volume.state, old(StagedTree()), payload)
      ensures ok ==> Plain(start.trees[old(StagedTree())])
      ensures !volume.faulty && Plain(start.trees[old(StagedTree())]) ==> ok
      ensures |old(volume.trail)| <= |volume.trail| && volume.trail[..|old(volume.trail)|] == old(volume.trail)
      ensures AllSafe(start, volume.trail, |old(volume.trail)|, payload)
    {
      var staged := Current(volume.state)[staging.value];
      ok := Checkpoint();
      if !ok {
        return;
      }
      var flushed: Node;
      ok, flushed := FsyncPayloadTree(volume.state.trees[staged], volume.faulty);
      volume.WriteTree(staged, flushed);
      StagingIsInvisible(start, volume.state, staged, payload);
      CandidatesIgnoreTrees(start, volume.state);
      if ok {
        ok := Checkpoint();
      }
      if ok {
        ok := Checkpoint();
      }
    }

    /** Point the target at the staged tree in one atomic change of names. */
    method Install(ghost start: Snapshot, ghost staged: TreeId, ghost payload: Content) returns (ok: bool)
      requires staging.Some? && staging.value.Staging? && backup.None? && !committed && !durabilityConfirmed
      requires Unpublished(start, staged) && OnlyTreeChanged(start, volume.state, staged)
      requires Lookup(Current(start), staging.value) == Some(staged)
      requires Flushed(volume.state, staged, payload)
      modifies this, volume
      ensures !durabilityConfirmed
      ensures |old(volume.trail)| <= |volume.trail| && volume.trail[..|old(volume.trail)|] == old(volume.trail)
      ensures AllSafe(start, volume.trail, |old(volume.trail)|, payload)
      ensures ok == committed && lockTree == old(lockTree)
      ensures !volume.faulty ==> ok
      ensures !ok ==> volume.state == old(volume.state) && staging == old(staging) && backup.None?
      ensures ok ==>
                && staging.None? && Flushed(volume.state, staged, payload)
                && backup == (if Target in Current(start) then old(staging) else None)
                && Installed(start, volume.state, staged, InstallChange(start, old(staging.value), staged))
    {
      ok := Checkpoint();
      if !ok {
        return;
      }
      var slot := staging.value;
      var names := Current(volume.state);
      var id := names[slot];
      if Target in names {
        ok := Checkpoint();
        if !ok {
          return;
        }
        ok := volume.Rename(map[Target := Some(id), slot := Some(names[Target])]);
      } else {
        ok := volume.Rename(map[Target := Some(id), slot := None]);
      }
      if !ok {
        StagingIsInvisible(start, volume.state, staged, payload);
        return;
      }
      InstalledIsSafe(start, volume.state, staged, InstallChange(start, slot, staged), payload);
      if Target in names {
        backup := staging;
      }
      committed := true;
      staging := None;
    }

    /** Make the exchange durable, then and only then delete the old tree. */
    method Settle(ghost start: Snapshot, ghost staged: TreeId, ghost slot: Slot, ghost payload: Content) returns (ok: bool)
      requires committed && staging.None? && !durabilityConfirmed && slot.Staging?
      requires Unpublished(start, staged) && Flushed(volume.state, staged, payload)
      requires backup == (if Target in Current(start) then Some(slot) else None)
      requires Installed(start, volume.state, staged, InstallChange(start, slot, staged))
      modifies this, volume
      ensures committed && staging.None? && lockTree == old(lockTree)
      ensures |old(volume.trail)| <= |volume.trail| && volume.trail[..|old(volume.trail)|] == old(volume.trail)
      ensures AllSafe(start, volume.trail, |old(volume.trail)|, payload)
      ensures Flushed(volume.state, staged, payload)
      ensures !durabilityConfirmed ==> !ok && volume.state == old(volume.state) && backup == old(backup)
      ensures durabilityConfirmed ==> Secured(volume.state, staged)
      ensures ok ==> durabilityConfirmed && backup.None?
      ensures ok ==> Current(volume.state) == Current(start)[Target := staged] - {slot}
      ensures !volume.faulty ==> ok
    {
      InstalledIsSafe(start, volume.state, staged, InstallChange(start, slot, staged), payload);
      CurrentIsCandidate(start);
      InstalledNamesAre(Current(start), slot, staged);
      ok := Checkpoint();
      if !ok {
        return;
      }
      ok := volume.FsyncParent();
      if !ok {
        return;
      }
      durabilityConfirmed := true;
      SecuredIsNew(volume.state, staged, payload);
      NewIsSafe(start, volume.state, payload);
      ghost var synced := volume.trail;
      ok := Checkpoint();
      if ok && backup.Some? {
        ok := DeleteBackup(staged, slot, payload);
        FinalIsSafe(start, volume.trail, |synced|, staged, payload);
        Joined(start, synced, volume.trail, |old(volume.trail)|, payload);
      }
      if ok {
        ok := Checkpoint();
      }
    }

    method RemoveOldTree(ghost staged: TreeId, slot: Slot, ghost payload: Content) returns (ok: bool)
      requires slot.Staging? && Final(volume.state, staged, payload)
      requires slot in Current(volume.state) && Current(volume.state)[slot] != staged
      modifies volume
      ensures |old(volume.trail)| <= |volume.trail| && volume.trail[..|old(volume.trail)|] == old(volume.trail)
      ensures forall i | |old(volume.trail)| <= i < |volume.trail| :: Final(volume.trail[i], staged, payload)
      ensures Final(volume.state, staged, payload)
      ensures ok ==> Current(volume.state) == Current(old(volume.state)) - {slot}
      ensures !volume.faulty ==> ok
    {
      ghost var before := volume.state;
      ghost var removed := Current(before)[slot];
      ok := volume.RemoveTree(slot);
      forall i | |old(volume.trail)| <= i < |volume.trail| - 1 ensures Final(volume.trail[i], staged, payload) {
        StillFinal(before, volume.trail[i], removed, staged, payload);
      }
      if ok {
        RemovedIsFinal(before, volume.state, removed, slot, staged, payload);
        RemovedName(Current(before), slot);
      } else {
        StillFinal(before, volume.state, removed, staged, payload);
      }
    }

    method DeleteBackup(ghost staged: TreeId, ghost slot: Slot, ghost payload: Content) returns (ok: bool)
      requires durabilityConfirmed && backup == Some(slot) && slot.Staging?
      requires Final(volume.state, staged, payload)
      requires slot in Current(volume.state) && Current(volume.state)[slot] != staged
      modifies this`backup, volume
      ensures |old(volume.trail)| <= |volume.trail| && volume.trail[..|old(volume.trail)|] == old(volume.trail)
      ensures forall i | |old(volume.trail)| <= i < |volume.trail| :: Final(volume.trail[i], staged, payload)
      ensures Final(volume.state, staged, payload)
      ensures ok ==> backup.None? && Current(volume.state) == Current(old(volume.state)) - {slot}
      ensures !volume.faulty ==> ok
    {
      ok := RemoveOldTree(staged, backup.value, payload);
      if ok {
        backup := None;
        SecuredIsNew(volume.state, staged, payload);
        ok := volume.FsyncParent();
        assert Final(volume.state, staged, payload);
      }
    }

    /** The body of `commit`'s try block. */
    method Attempt(ghost start: Snapshot, ghost staged: TreeId, ghost slot: Slot, ghost payload: Content) returns (ok: bool)
      requires Entered() && start == volume.state && staged == StagedTree() && slot == staging.value
      requires payload == ContentOf(start.trees[staged])
      modifies this, volume
      ensures |old(volume.trail)| <= |volume.trail| && volume.trail[..|old(volume.trail)|] == old(volume.trail)
      ensures AllSafe(start, volume.trail, |old(volume.trail)|, payload)
      ensures !committed ==> !ok && !durabilityConfirmed && staging == Some(slot) && backup.None?
                             && OnlyTreeChanged(start, volume.state, staged) && Unpublished(volume.state, staged)
      ensures committed ==> staging.None? && Flushed(volume.state, staged, payload) && Plain(start.trees[staged])
      ensures committed && !durabilityConfirmed ==>
                && !ok
                && backup == (if Target in Current(start) then Some(slot) else None)
                && Installed(start, volume.state, staged, InstallChange(start, slot, staged))
      ensures durabilityConfirmed ==> committed && Secured(volume.state, staged)
      ensures ok ==> durabilityConfirmed && backup.None?
      ensures ok ==> Current(volume.state) == Current(start)[Target := staged] - {slot}
      ensures !volume.faulty && Plain(start.trees[staged]) ==> ok
      ensures lockTree == old(lockTree)
    {
      ok := Prepare(start, payload);
      if ok {
        ghost var prepared := volume.trail;
        ok := Install(start, staged, payload);
        Joined(start, prepared, volume.trail, |old(volume.trail)|, payload);
      }
      if ok {
        ghost var installed := volume.trail;
        ok := Settle(start, staged, slot, payload);
        Joined(start, installed, volume.trail, |old(volume.trail)|, payload);
      }
    }

    /** `commit`.  Safe at every crash point; and at every failure the flags and the report say
        what has become of the disk. */
    method Commit() returns (r: Outcome)
      requires staging.Some? ==> Entered()
      modifies this, volume
      ensures lockTree == old(lockTree)
      ensures old(staging.None?) ==> r == NotEntered && volume.state == old(volume.state)
      ensures old(staging.Some?) ==>
                var start, staged := old(volume.state), old(StagedTree());
                var payload := ContentOf(start.trees[staged]);
                && r != NotEntered
                && |old(volume.trail)| <= |volume.trail|
                && volume.trail[..|old(volume.trail)|] == old(volume.trail)
                && AllSafe(start, volume.trail, |old(volume.trail)|, payload) && Safe(start, volume.state, payload)
                && (committed <==> Lookup(Current(volume.state), Target) == Some(staged))
                && (committed ==> staging.None?)
                && (!committed ==> staging == old(staging) && backup.None?
                                   && Lookup(Current(volume.state), staging.value) == Some(staged)
                                   && OnlyTreeChanged(start, volume.state, staged) && Unpublished(volume.state, staged))
                && (backup.Some? ==> committed)
                && (durabilityConfirmed ==> committed && OnlyNew(volume.state, payload))
                && (committed ==> Flushed(volume.state, staged, payload))
                && (r == Published ==> durabilityConfirmed && backup.None?)
                && (r == Failed(NotCommitted) <==> !committed)
                && (r == Failed(DurabilityUncertain) <==> committed && !durabilityConfirmed)
                && (r == Failed(DurabilityUncertain) ==>
                      Candidates(volume.state) == Candidates(start) + {Some(staged)})
                && (r == Failed(CleanupFailed) ==> durabilityConfirmed)
      ensures r == Published ==>
                Current(volume.state) == Current(old(volume.state))[Target := old(StagedTree())] - NameOf(old(staging))
      ensures r == Published ==> Plain(old(volume.state).trees[old(StagedTree())])
      ensures old(staging.Some?) && !volume.faulty && Plain(old(volume.state).trees[old(StagedTree())]) ==> r == Published
      ensures old(staging.Some?) && r == Failed(DurabilityUncertain) ==>
                OldTreeKept(old(volume.state), volume.state, old(staging.value), backup)
    {
      if staging.None? {
        return NotEntered;
      }
      ghost var start, staged, slot := volume.state, StagedTree(), staging.value;
      ghost var payload := ContentOf(start.trees[staged]);
      var ok := Attempt(start, staged, slot, payload);
      Settled(start, volume.state, staged, slot, payload, committed, durabilityConfirmed);
      if !committed {
        SameNames(start, volume.state);
      }
      // A rollback would need a backup without a commit.
      assert backup.Some? ==> committed;
      if ok {
        r := Published;
      } else if committed && durabilityConfirmed {
        r := Failed(CleanupFailed);
      } else if committed {
        r := Failed(DurabilityUncertain);
      } else {
        r := Failed(NotCommitted);
      }
    }
  }

  /** The body of the `with` statement fills the staging directory, which passes through the given
      states, and may raise after any of them. */
  method FillStaging(p: AtomicDirectoryPublisher, states: seq<Node>) returns (ok: bool)
    requires p.Entered() && forall n | n in states :: n.Dir?
    modifies p.volume
    ensures |old(p.volume.trail)| <= |p.volume.trail| && p.volume.trail[..|old(p.volume.trail)|] == old(p.volume.trail)
    ensures forall i | |old(p.volume.trail)| <= i < |p.volume.trail| :: SameTarget(old(p.volume.state), p.volume.trail[i])
    ensures SameTarget(old(p.volume.state), p.volume.state)
    ensures p.Entered() && Current(p.volume.state) == Current(old(p.volume.state))
    ensures !p.volume.faulty ==> ok
    ensures ok && states != [] ==> p.volume.state.trees[p.StagedTree()] == states[|states| - 1]
  {
    var id := Current(p.volume.state)[p.staging.value];
    ok := true;
    ghost var start := p.volume.state;
    for k := 0 to |states|
      invariant |old(p.volume.trail)| <= |p.volume.trail| && p.volume.trail[..|old(p.volume.trail)|] == old(p.volume.trail)
      invariant forall i | |old(p.volume.trail)| <= i < |p.volume.trail| :: SameTarget(start, p.volume.trail[i])
      invariant SameTarget(start, p.volume.state) && p.Entered() && p.StagedTree() == id
      invariant ok && Current(p.volume.state) == Current(start)
      invariant k > 0 ==> p.volume.state.trees[id] == states[k - 1]
    {
      ghost var before := p.volume.state;
      assert states[k] in states;
      p.volume.WriteTree(id, states[k]);
      CandidatesIgnoreTrees(before, p.volume.state);
      SameNames(before, p.volume.state);
      ok := p.Checkpoint();
      if !ok {
        return;
      }
    }
  }

  /** Safety of a trail whose steps so far left the target alone. */
  lemma SafeAfterwards(start: Snapshot, before: Snapshot, trail: seq<Snapshot>, from: nat, payload: Content)
    requires SameTarget(start, before) && AllSafe(before, trail, from, payload)
    ensures AllSafe(start, trail, from, payload)
  {
    forall i | from <= i < |trail| ensures Safe(start, trail[i], payload) {
      SafeAround(start, before, trail[i], trail[i], payload);
    }
  }

  /** Safety of steps that leave the target alone after a safe state. */
  lemma SafeStill(start: Snapshot, after: Snapshot, trail: seq<Snapshot>, from: nat, payload: Content)
    requires Safe(start, after, payload) && forall i | from <= i < |trail| :: SameTarget(after, trail[i])
    ensures AllSafe(start, trail, from, payload)
  {
    forall i | from <= i < |trail| ensures Safe(start, trail[i], payload) {
      SafeAround(start, start, after, trail[i], payload);
    }
  }

  /** The body of the `with` statement with the commit at its end. */
  method FillAndCommit(p: AtomicDirectoryPublisher, states: seq<Node>, payload: Node) returns (r: Outcome)
    requires p.Entered() && payload.Dir? && forall n | n in states :: n.Dir?
    modifies p, p.volume
    ensures |old(p.volume.trail)| <= |p.volume.trail| && p.volume.trail[..|old(p.volume.trail)|] == old(p.volume.trail)
    ensures AllSafe(old(p.volume.state), p.volume.trail, |old(p.volume.trail)|, ContentOf(payload))
    ensures Safe(old(p.volume.state), p.volume.state, ContentOf(payload))
    ensures p.staging.Some? ==> p.staging.value.Staging? && p.staging.value in Current(p.volume.state)
                                && Unpublished(p.volume.state, Current(p.volume.state)[p.staging.value])
    ensures p.backup.Some? ==> p.committed
    ensures p.durabilityConfirmed ==> OnlyNew(p.volume.state, ContentOf(payload))
    ensures r == Published ==> p.durabilityConfirmed && p.staging.None? && p.backup.None?
    ensures r == Published ==> Current(p.volume.state)
                               == Current(old(p.volume.state))[Target := old(p.StagedTree())] - NameOf(old(p.staging))
    ensures r == Published ==> Plain(payload)
    ensures !p.volume.faulty && Plain(payload) ==> r == Published
    ensures p.lockTree == old(p.lockTree)
    ensures r == Published ==> Flushed(p.volume.state, old(p.StagedTree()), ContentOf(payload))
    ensures !p.volume.faulty ==> r != NotEntered
    ensures !p.committed <==> r == NotEntered || r == Failed(NotCommitted)
    ensures !p.committed ==> SameTarget(old(p.volume.state), p.volume.state)
  {
    ghost var start, from := p.volume.state, |p.volume.trail|;
    var ok := FillStaging(p, states + [payload]);
    ghost var filled, trail := p.volume.state, p.volume.trail;
    SafeStill(start, start, trail, from, ContentOf(payload));
    r := NotEntered;
    if !ok {
      SafeAround(start, start, start, filled, ContentOf(payload));
      return;
    }
    ghost var staged := p.StagedTree();
    r := p.Commit();
    SafeAfterwards(start, filled, p.volume.trail, |trail|, ContentOf(payload));
    Joined(start, trail, p.volume.trail, from, ContentOf(payload));
    if !p.committed {
      UnpublishedRemoval(filled, p.volume.state, staged);
    }
    SafeAround(start, filled, p.volume.state, p.volume.state, ContentOf(payload));
  }

  /** The names after a publication: the target's is new, the publisher's own are gone. */
  lemma NamesLeft(names: Names, entered: Names, done: Names, lock: TreeId, slot: Slot, staged: TreeId)
    requires WriterLock !in names && slot.Staging? && slot !in names
    requires entered == names[WriterLock := lock][slot := staged] && done == entered[Target := staged] - {slot}
    ensures done - {} - LockName(done, Some(lock)) == names[Target := staged]
  {
  }

  /** One publication from beginning to end: enter, fill the staging directory, commit, leave; a
      failing or raising step leads straight to the exit.  Whatever fails, and wherever the power
      is lost, the target leads to what it led to before or to exactly the payload. */
  method Publish(volume: Volume, overwrite: bool, tokens: seq<nat>, states: seq<Node>, payload: Node)
    returns (p: AtomicDirectoryPublisher, r: Outcome, clean: bool)
    requires |tokens| == 128 && payload.Dir? && forall n | n in states :: n.Dir?
    requires forall id | id in Candidates(volume.state) && id.Some? :: id.value in volume.state.trees
    modifies volume
    ensures fresh(p) && p.volume == volume
    ensures |old(volume.trail)| <= |volume.trail| && volume.trail[..|old(volume.trail)|] == old(volume.trail)
    ensures AllSafe(old(volume.state), volume.trail, |old(volume.trail)|, ContentOf(payload))
    ensures Safe(old(volume.state), volume.state, ContentOf(payload))
    ensures r == Published ==> p.durabilityConfirmed
    ensures p.durabilityConfirmed ==> OnlyNew(volume.state, ContentOf(payload))
    ensures !p.committed <==> r == NotEntered || r == Failed(NotCommitted)
    ensures !p.committed ==> SameTarget(old(volume.state), volume.state)
    ensures !volume.faulty ==> clean
    ensures r == Published ==> CanEnter(Current(old(volume.state)), overwrite, tokens) && Plain(payload)
    ensures !volume.faulty ==>
              (r == Published <==> CanEnter(Current(old(volume.state)), overwrite, tokens) && Plain(payload))
    ensures r == Published ==> Target in Current(volume.state)
                               && Flushed(volume.state, Current(volume.state)[Target], ContentOf(payload))
    ensures r == Published && clean ==>
              Current(volume.state) == Current(old(volume.state))[Target := Current(volume.state)[Target]]
    ensures !volume.faulty && r == NotEntered ==> Current(volume.state) == Current(old(volume.state))
  {
    ghost var start, from := volume.state, |volume.trail|;
    p := new AtomicDirectoryPublisher(volume, overwrite);
    var ok := p.Enter(tokens);
    ghost var entered, trail := volume.state, volume.trail;
    SafeStill(start, start, trail, from, ContentOf(payload));
    SafeAround(start, start, start, entered, ContentOf(payload));
    r, clean := NotEntered, true;
    if ok {
      ghost var slot, staged := p.staging.value, p.StagedTree();
      r := FillAndCommit(p, states, payload);
      SafeAfterwards(start, entered, volume.trail, |trail|, ContentOf(payload));
      Joined(start, trail, volume.trail, from, ContentOf(payload));
      SafeAround(start, entered, volume.state, volume.state, ContentOf(payload));
      ghost var done;
      done, trail := volume.state, volume.trail;
      ghost var lock := p.lockTree;
      clean := p.Exit();
      if r == Published && clean {
        NamesLeft(Current(start), Current(entered), Current(done), lock.value, slot, staged);
      }
      SafeStill(start, done, volume.trail, |trail|, ContentOf(payload));
      Joined(start, trail, volume.trail, from, ContentOf(payload));
      SafeAround(start, start, done, volume.state, ContentOf(payload));
      CurrentIsCandidate(done);
      if p.durabilityConfirmed {
        OnlyNewStays(done, volume.state, ContentOf(payload));
      }
    }
  }

  lemma Joined(start: Snapshot, first: seq<Snapshot>, trail: seq<Snapshot>, from: nat, payload: Content)
    requires AllSafe(start, first, from, payload) && AllSafe(start, trail, |first|, payload)
    requires |first| <= |trail| && trail[..|first|] == first
    ensures AllSafe(start, trail, from, payload)
  {
    forall i | from <= i < |trail| ensures Safe(start, trail[i], payload) {
      if i < |first| {
        assert trail[i] == first[i];
      }
    }
  }

  /** What the flags say about the names, and about every crash. */
  lemma Settled(start: Snapshot, s: Snapshot, staged: TreeId, slot: Slot, payload: Content, committed: bool, durable: bool)
    requires Unpublished(start, staged) && (durable ==> committed)
    requires !committed ==> OnlyTreeChanged(start, s, staged)
    requires committed ==> Flushed(s, staged, payload)
    requires committed && !durable ==> Installed(start, s, staged, InstallChange(start, slot, staged)) && slot.Staging?
    requires durable ==> Secured(s, staged)
    ensures Safe(start, s, payload)
    ensures committed <==> Lookup(Current(s), Target) == Some(staged)
    ensures durable ==> OnlyNew(s, payload)
    ensures committed && !durable ==> Candidates(s) == Candidates(start) + {Some(staged)}
    ensures committed && !durable ==> Lookup(Current(s), slot) == Lookup(Current(start), Target)
    ensures Lookup(Current(start), Target) != Some(staged)
  {
    CurrentIsCandidate(start);
    if durable {
      SecuredIsNew(s, staged, payload);
      NewIsSafe(start, s, payload);
    } else if committed {
      InstalledIsSafe(start, s, staged, InstallChange(start, slot, staged), payload);
    } else {
      SameNames(start, s);
      StagingIsInvisible(start, s, staged, payload);
    }
  }

  /** The names after the change that publishes. */
  lemma InstalledNamesAre(names: Names, slot: Slot, staged: TreeId)
    requires slot.Staging?
    ensures var old_ := Lookup(names, Target);
            Apply(names, map[Target := Some(staged), slot := old_]) - {slot} == names[Target := staged] - {slot}
    ensures Lookup(names, Target) == None ==>
              Apply(names, map[Target := Some(staged), slot := None]) == names[Target := staged] - {slot}
  {
  }

  lemma NewIsSafe(start: Snapshot, s: Snapshot, payload: Content)
    requires OnlyNew(s, payload)
    ensures Safe(start, s, payload)
  {
  }

  /** The change of names that publishes: an exchange if there was a target, else a rename. */
  function InstallChange(start: Snapshot, slot: Slot, staged: TreeId): Change {
    var old_ := Lookup(Current(start), Target);
    map[Target := Some(staged), slot := old_]
  }

  /** After an exchange whose durability is uncertain the old tree is intact under the backup name. */
  ghost predicate OldTreeKept(start: Snapshot, s: Snapshot, slot: Slot, backup: Option<Slot>) {
    Target in Current(start) ==>
      && backup == Some(slot)
      && Lookup(Current(s), slot) == Lookup(Current(start), Target)
      && (var t := Current(start)[Target]; t in start.trees ==> t in s.trees && s.trees[t] == start.trees[t])
  }

  /** The target leads to the complete new tree, whatever happens. */
  predicate Final(s: Snapshot, staged: TreeId, payload: Content) {
    Secured(s, staged) && Flushed(s, staged, payload)
  }

  lemma StillFinal(before: Snapshot, s: Snapshot, removed: TreeId, staged: TreeId, payload: Content)
    requires Final(before, staged, payload) && removed != staged
    requires OnlyTreeChanged(before, s, removed)
    ensures Final(s, staged, payload)
  {
    CandidatesIgnoreTrees(before, s);
  }

  lemma RemovedIsFinal(before: Snapshot, s: Snapshot, removed: TreeId, slot: Slot, staged: TreeId, payload: Content)
    requires Final(before, staged, payload) && removed != staged && slot.Staging?
    requires OnlyTreeChanged(before, s.(pending := before.pending), removed)
    requires s.pending == before.pending + [map[slot := None]]
    ensures Final(s, staged, payload) && Current(s) == Apply(Current(before), map[slot := None])
  {
    var named := s.(pending := before.pending);
    SameNames(before, named);
    StillFinal(before, named, removed, staged, payload);
    ChangeAddsCandidate(named, map[slot := None]);
    assert named.(pending := before.pending + [map[slot := None]]) == s;
  }

  lemma FinalIsSafe(start: Snapshot, trail: seq<Snapshot>, from: nat, staged: TreeId, payload: Content)
    requires forall i | from <= i < |trail| :: Final(trail[i], staged, payload)
    ensures AllSafe(start, trail, from, payload)
  {
    forall i | from <= i < |trail| ensures Safe(start, trail[i], payload) {
      SecuredIsNew(trail[i], staged, payload);
    }
  }
}
