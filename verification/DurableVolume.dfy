/** The parent directory of an artifact on disk: names that are durable, changes of names that
    are not, and the trees the names lead to. */
module DurableVolume {
  import opened PayloadTree
  import opened Wrappers

  type TreeId = nat

  /** The entries of the parent that a publisher uses. */
  datatype Slot = Target | WriterLock | Staging(token: nat)

  type Names = map<Slot, TreeId>

  /** One atomic change of the directory: every slot it mentions is set or removed. */
  type Change = map<Slot, Option<TreeId>>

  datatype Snapshot = Snapshot(onDisk: Names, pending: seq<Change>, trees: map<TreeId, Node>)

  function Apply(m: Names, c: Change): Names {
    map k | k in m.Keys + c.Keys && (k in c ==> c[k].Some?) :: if k in c then c[k].value else m[k]
  }

  function ApplyAll(m: Names, cs: seq<Change>): Names {
    if cs == [] then m else Apply(ApplyAll(m, cs[..|cs| - 1]), cs[|cs| - 1])
  }

  /** The names as the running system sees them. */
  function Current(s: Snapshot): Names { ApplyAll(s.onDisk, s.pending) }

  function Kept(cs: seq<Change>, keep: seq<bool>): seq<Change>
    requires |keep| == |cs|
  {
    if cs == [] then []
    else Kept(cs[..|cs| - 1], keep[..|cs| - 1]) + if keep[|cs| - 1] then [cs[|cs| - 1]] else []
  }

  /** After a power loss any of the unsynced changes may have reached the disk, and any not;
      the target then leads nowhere, or to a crash image of some tree. */
  ghost predicate CrashTarget(s: Snapshot, found: Option<Content>) {
    exists keep: seq<bool> ::
      |keep| == |s.pending| && Leads(s.trees, Lookup(ApplyAll(s.onDisk, Kept(s.pending, keep)), Target), found)
  }

  predicate Leads(trees: map<TreeId, Node>, id: Option<TreeId>, found: Option<Content>) {
    match id
    case None => found.None?
    case Some(t) => found.Some? && (t in trees ==> CrashImage(trees[t], found.value))
  }

  // ---- which trees the target may lead to -------------------------------------------

  function Candidates(s: Snapshot): set<Option<TreeId>>
    decreases |s.pending|
  {
    if s.pending == [] then {Lookup(s.onDisk, Target)}
    else
      var n := |s.pending| - 1;
      Candidates(s.(pending := s.pending[..n]))
      + if Target in s.pending[n] then {s.pending[n][Target]} else {}
  }

  lemma ApplyLookup(m: Names, c: Change, k: Slot)
    ensures Lookup(Apply(m, c), k) == if k in c then c[k] else Lookup(m, k)
  {
  }

  lemma KeptLast(cs: seq<Change>, keep: seq<bool>)
    requires |keep| == |cs| > 0
    ensures var n := |cs| - 1;
            Kept(cs, keep) == Kept(cs[..n], keep[..n]) + if keep[n] then [cs[n]] else []
  {
  }

  lemma ApplyAllLast(m: Names, cs: seq<Change>, c: Change)
    ensures ApplyAll(m, cs + [c]) == Apply(ApplyAll(m, cs), c)
  {
    assert (cs + [c])[..|cs|] == cs;
  }

  lemma {:induction false} CrashLeadsToCandidate(s: Snapshot, keep: seq<bool>)
    requires |keep| == |s.pending|
    ensures Lookup(ApplyAll(s.onDisk, Kept(s.pending, keep)), Target) in Candidates(s)
    decreases |s.pending|
  {
    if s.pending != [] {
      var n := |s.pending| - 1;
      CrashLeadsToCandidate(s.(pending := s.pending[..n]), keep[..n]);
      var earlier := Kept(s.pending[..n], keep[..n]);
      KeptLast(s.pending, keep);
      if keep[n] {
        ApplyAllLast(s.onDisk, earlier, s.pending[n]);
        ApplyLookup(ApplyAll(s.onDisk, earlier), s.pending[n], Target);
      } else {
        assert Kept(s.pending, keep) == earlier;
      }
    }
  }

  lemma {:induction false} CandidateIsReached(s: Snapshot, id: Option<TreeId>) returns (keep: seq<bool>)
    requires id in Candidates(s)
    ensures |keep| == |s.pending|
    ensures Lookup(ApplyAll(s.onDisk, Kept(s.pending, keep)), Target) == id
    decreases |s.pending|
  {
    if s.pending == [] {
      keep := [];
    } else {
      var n := |s.pending| - 1;
      var before := s.(pending := s.pending[..n]);
      var last := id !in Candidates(before);
      if last {
        keep := seq(n, _ => false) + [true];
      } else {
        keep := CandidateIsReached(before, id);
        keep := keep + [false];
      }
      var earlier := Kept(s.pending[..n], keep[..n]);
      if last {
        assert Kept(s.pending, keep)[..|earlier|] == earlier;
      } else {
        assert keep[..n] + [false] == keep;
        assert Kept(s.pending, keep) == earlier;
      }
    }
  }

  /** Exactly the candidates are what a crash can leave behind. */
  lemma CrashTargetIsCandidate(s: Snapshot, found: Option<Content>)
    ensures CrashTarget(s, found) <==> exists id :: id in Candidates(s) && Leads(s.trees, id, found)
  {
    if CrashTarget(s, found) {
      var keep: seq<bool> :|
        |keep| == |s.pending| && Leads(s.trees, Lookup(ApplyAll(s.onDisk, Kept(s.pending, keep)), Target), found);
      CrashLeadsToCandidate(s, keep);
    }
    if id :| id in Candidates(s) && Leads(s.trees, id, found) {
      var keep := CandidateIsReached(s, id);
    }
  }

  lemma {:induction false} CurrentIsCandidate(s: Snapshot)
    ensures Lookup(Current(s), Target) in Candidates(s)
    decreases |s.pending|
  {
    if s.pending != [] {
      CurrentIsCandidate(s.(pending := s.pending[..|s.pending| - 1]));
    }
  }

  /** One more unsynced change adds at most one place the target may lead to. */
  lemma ChangeAddsCandidate(s: Snapshot, c: Change)
    ensures var s' := s.(pending := s.pending + [c]);
            && Current(s') == Apply(Current(s), c)
            && Candidates(s') == Candidates(s) + if Target in c then {c[Target]} else {}
  {
    var s' := s.(pending := s.pending + [c]);
    assert s'.pending[..|s'.pending| - 1] == s.pending;
    assert s'.(pending := s.pending) == s;
  }

  // ---- system calls -----------------------------------------------------------------

  /** The mounted directory.  `trail` records the state after every system call, so that a
      property of all its entries is a property of every crash point. */
  class Volume {
    /** May system calls fail? */
    const faulty: bool
    var state: Snapshot
    ghost var trail: seq<Snapshot>

    method Rename(c: Change) returns (ok: bool)
      modifies this
      ensures trail == old(trail) + [state]
      ensures state == if ok then old(state).(pending := old(state).pending + [c]) else old(state)
      ensures !faulty ==> ok
    {
      var failed := SyscallFails(faulty);
      ok := !failed;
      if ok {
        state := state.(pending := state.pending + [c]);
      }
      trail := trail + [state];
    }

    /** fsync of the directory: on success every change so far is durable. */
    method FsyncParent() returns (ok: bool)
      modifies this
      ensures trail == old(trail) + [state]
      ensures state == if ok then Snapshot(Current(old(state)), [], old(state).trees) else old(state)
      ensures !faulty ==> ok
    {
      var failed := SyscallFails(faulty);
      ok := !failed;
      if ok {
        state := Snapshot(Current(state), [], state.trees);
      }
      trail := trail + [state];
    }

    method WriteTree(id: TreeId, n: Node)
      modifies this
      ensures trail == old(trail) + [state]
      ensures state == old(state).(trees := old(state).trees[id := n])
    {
      state := state.(trees := state.trees[id := n]);
      trail := trail + [state];
    }

    /** Remove a tree entry by entry and then its name; it may stop half way. */
    method RemoveTree(slot: Slot) returns (ok: bool)
      requires slot in Current(state)
      modifies this
      ensures |old(trail)| <= |trail| && trail[..|old(trail)|] == old(trail)
      ensures forall i | |old(trail)| <= i < |trail| - 1 ::
                OnlyTreeChanged(old(state), trail[i], Current(old(state))[slot])
      ensures |old(trail)| < |trail| && trail[|trail| - 1] == state
      ensures var id := Current(old(state))[slot];
              if ok then
                && OnlyTreeChanged(old(state), state.(pending := old(state).pending), id)
                && state.pending == old(state).pending + [map[slot := None]]
              else OnlyTreeChanged(old(state), state, id)
      ensures !faulty ==> ok
    {
      var id := Current(state)[slot];
      var left: nat := *;
      while left > 0
        invariant |old(trail)| <= |trail| && trail[..|old(trail)|] == old(trail)
        invariant OnlyTreeChanged(old(state), state, id)
        invariant forall i | |old(trail)| <= i < |trail| :: OnlyTreeChanged(old(state), trail[i], id)
      {
        var remainder: Node := *;
        WriteTree(id, remainder);
        left := left - 1;
      }
      ok := Rename(map[slot := None]);
    }
  }

  predicate OnlyTreeChanged(s: Snapshot, s': Snapshot, id: TreeId) {
    && s'.onDisk == s.onDisk && s'.pending == s.pending
    && s.trees.Keys <= s'.trees.Keys
    && forall t | t in s.trees && t != id :: s'.trees[t] == s.trees[t]
  }
}
