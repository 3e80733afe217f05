/** What readers see while directories and lease files are moved about: everything an active
    reader reads is one generation, provided that no directory appears in two domains with
    lease files that change. */
module LeaseSnapshots {
  import opened Wrappers
  import opened LeaseProtocol
  import opened LeaseSafety
  import opened LeaseTheorems

  // ---- what may move ----------------------------------------------------------------

  /** Which domains may ever be found for a parent path, which directories it may lead to, and which
      files a lease file name. */
  datatype Moves = Moves(domain: (Path, Domain) -> bool, parent: (Path, Inode) -> bool, lease: (Slot, Inode) -> bool)

  predicate Allows(moves: Moves, s: State, a: Action) {
    match a
    case Create(_, art, _) => moves.domain(art.parent, art.domain)
    case ReplaceParent(path, r) => r.Some? ==> moves.parent(path, r.value)
    case ReplaceLease(slot, r) => r.Some? ==> moves.lease(slot, r.value)
    case Take(pid, step) =>
      step.Compare? && pid in s.leases && SlotOf(s.leases[pid]) !in s.disk.leaseAt
      ==> moves.lease(SlotOf(s.leases[pid]), step.created)
    case _ => true
  }

  predicate RunWithin(t: Topology, moves: Moves, s: State, actions: seq<Action>, s': State)
    decreases |actions|
  {
    if actions == [] then s' == s
    else
      && Enabled(t, s, actions[0]) && Allows(moves, s, actions[0])
      && RunWithin(t, moves, Effect(t, s, actions[0]), actions[1..], s')
  }

  ghost predicate DiskWithin(moves: Moves, d: Disk) {
    && (forall path | path in d.parentAt :: moves.parent(path, d.parentAt[path]))
    && (forall slot | slot in d.leaseAt :: moves.lease(slot, d.leaseAt[slot]))
  }

  ghost predicate ReachableWithin(t: Topology, moves: Moves, s: State) {
    exists s0: State, actions: seq<Action> ::
      Initial(s0) && DiskWithin(moves, s0.disk) && RunWithin(t, moves, s0, actions, s)
  }

  lemma {:induction false} WithinIsExecution(t: Topology, moves: Moves, s: State, actions: seq<Action>, s': State)
    requires RunWithin(t, moves, s, actions, s')
    ensures Execution(t, s, actions, s')
    decreases |actions|
  {
    if actions != [] {
      WithinIsExecution(t, moves, Effect(t, s, actions[0]), actions[1..], s');
    }
  }

  /** The artifact `n` below the path `p` of the domain `d`, in the directory `i`, with the lease file
      `f`. */
  datatype Place = Place(d: Domain, p: Path, i: Inode, n: Name, f: Inode)

  predicate May(moves: Moves, x: Place) {
    moves.domain(x.p, x.d) && moves.parent(x.p, x.i) && moves.lease(Slot(x.i, x.n), x.f)
  }

  /** A directory that may appear in two domains keeps its lease files. */
  ghost predicate Separated(t: Topology, moves: Moves) {
    forall x: Place, y: Place ::
      May(moves, x) && May(moves, y) && x.d != y.d && x.i == y.i && x.n == y.n ==> x.f == y.f
  }

  /** No lease file is found in two domains. */
  ghost predicate OwnLeaseFiles(t: Topology, moves: Moves) {
    forall x: Place, y: Place ::
      May(moves, x) && May(moves, y) && x.d != y.d ==> x.f != y.f
  }

  // ---- the invariant ----------------------------------------------------------------

  predicate KnowsLeaseFile(l: Lease) {
    || HoldsData(l)
    || l.at.Compared? || l.at.Joined? || l.at.JoinedValid? || l.at.Coordinated? || l.at.Truncated?
    || l.at.Recorded? || l.at.Gap? || l.at.Settled?
  }

  /** The inodes a lease works on are among those its names may lead to. */
  predicate LeaseWithin(moves: Moves, l: Lease) {
    && moves.domain(l.art.parent, l.art.domain)
    && (l.data != Unlocked || (l.at != Created && l.at != Closing) ==> moves.parent(l.art.parent, l.parent))
    && (l.data != Unlocked || KnowsLeaseFile(l) ==> moves.lease(SlotOf(l), l.lease))
  }

  /** Where a lease that knows its lease file works. */
  function PlaceOf(l: Lease): Place { Place(l.art.domain, l.art.parent, l.parent, l.art.name, l.lease) }

  function SlotTree(d: Disk, l: Lease): Option<Tree> { Lookup(d.slots, SlotOf(l)) }

  /** The anchor of an active reader, or of a lease about to become active, is what its slot
      holds; it has one content, and nothing else has been read. */
  predicate Steady(d: Disk, l: Lease) {
    && (l.at == Validated ==> l.seen == SlotTree(d, l))
    && (Reading(l) ==>
          && l.anchor == l.seen == SlotTree(d, l)
          && (l.anchor.Some? ==>
                && l.generation.Some?
                && l.generation == Lookup(d.content, l.anchor.value)
                && forall i | 0 <= i < |l.observed| :: l.observed[i] == l.generation.value)
          && (l.anchor.None? ==> l.observed == []))
    && (!(l.at.Active? || l.at.Closing?) ==> l.observed == [])
  }

  ghost predicate SnapshotInv(t: Topology, moves: Moves, s: State) {
    && Inv(t, s)
    && DiskWithin(moves, s.disk)
    && (forall p | p in s.leases :: LeaseWithin(moves, s.leases[p]))
    && (Separated(t, moves) ==> forall p | p in s.leases :: Steady(s.disk, s.leases[p]))
  }

  // ---- preservation -----------------------------------------------------------------

  /** Only two steps look up an inode; all others keep the pair they work on, or forget it. */
  lemma StepKeepsInodes(t: Topology, d: Disk, l: Lease, step: Step)
    requires CanStep(t, d, l, step) && !step.OpenParent? && !step.Compare?
    ensures var l' := LeaseAfter(t, d, l, step); l'.art == l.art && l'.parent == l.parent && l'.lease == l.lease
  {
    if Early(step) {
    } else if Late(step) {
    }
  }

  lemma StepKeepsKnowledge(t: Topology, d: Disk, l: Lease, step: Step)
    requires CanStep(t, d, l, step) && !step.OpenParent? && !step.Compare?
    ensures var l' := LeaseAfter(t, d, l, step);
            && (l'.at != Created && l'.at != Closing ==> l.at != Created && l.at != Closing)
            && (LocksOk(l) && KnowsLeaseFile(l') ==> KnowsLeaseFile(l))
  {
    if Early(step) {
    } else if Late(step) {
    }
  }

  lemma StepKeepsLeaseWithin(t: Topology, moves: Moves, d: Disk, l: Lease, step: Step)
    requires LocksOk(l) && LeaseWithin(moves, l) && DiskWithin(moves, d) && CanStep(t, d, l, step)
    requires step.Compare? && SlotOf(l) !in d.leaseAt ==> moves.lease(SlotOf(l), step.created)
    ensures LeaseWithin(moves, LeaseAfter(t, d, l, step)) && DiskWithin(moves, DiskAfter(t, d, l, step))
  {
    if !step.OpenParent? && !step.Compare? {
      StepKeepsInodes(t, d, l, step);
      StepKeepsKnowledge(t, d, l, step);
      StepTakesData(t, d, l, step);
    }
  }

  /** Before activation nothing has been read; only the last validation looks at the entry. */
  lemma ValidateKeepsSteady(t: Topology, d: Disk, l: Lease)
    requires Steady(d, l) && CanStep(t, d, l, ValidateParent)
    ensures Steady(d, LeaseAfter(t, d, l, ValidateParent))
  {
  }

  lemma EarlyKeepsSteady(t: Topology, d: Disk, l: Lease, step: Step)
    requires Steady(d, l) && CanStep(t, d, l, step) && Early(step) && !step.ValidateParent?
    ensures Steady(DiskAfter(t, d, l, step), LeaseAfter(t, d, l, step))
  {
  }

  lemma MarkKeepsSteady(t: Topology, d: Disk, l: Lease)
    requires DiskOk(d) && Steady(d, l) && CanStep(t, d, l, Mark)
    ensures Steady(d, LeaseAfter(t, d, l, Mark))
  {
  }

  lemma PublishKeepsSteady(t: Topology, d: Disk, l: Lease, step: Step)
    requires Steady(d, l) && CanStep(t, d, l, step) && Publishes(step)
    ensures Steady(DiskAfter(t, d, l, step), LeaseAfter(t, d, l, step))
  {
    assert Publishing(l) && Publishing(LeaseAfter(t, d, l, step));
  }

  lemma ReadKeepsSteady(t: Topology, d: Disk, l: Lease)
    requires Steady(d, l) && CanStep(t, d, l, Read)
    ensures Steady(d, LeaseAfter(t, d, l, Read))
  {
  }

  /** The other steps of an active lease and of its release. */
  lemma ReleaseKeepsSteady(t: Topology, d: Disk, l: Lease, step: Step)
    requires LocksOk(l) && Steady(d, l) && CanStep(t, d, l, step) && Late(step) && !Publishes(step) && !step.Read?
    ensures Steady(DiskAfter(t, d, l, step), LeaseAfter(t, d, l, step))
  {
  }

  lemma StepKeepsSteady(t: Topology, d: Disk, l: Lease, step: Step)
    requires DiskOk(d) && LocksOk(l) && Steady(d, l) && CanStep(t, d, l, step)
    ensures Steady(DiskAfter(t, d, l, step), LeaseAfter(t, d, l, step))
  {
    if step.ValidateParent? {
      ValidateKeepsSteady(t, d, l);
    } else if Early(step) {
      EarlyKeepsSteady(t, d, l, step);
    } else if Publishes(step) {
      PublishKeepsSteady(t, d, l, step);
    } else if step.Read? {
      ReadKeepsSteady(t, d, l);
    } else if Late(step) {
      ReleaseKeepsSteady(t, d, l, step);
    } else if step.Mark? {
      MarkKeepsSteady(t, d, l);
    }
  }

  /** A publisher never works on the entry of a lease that has validated its tree: within a domain
      the domain lock keeps it out, across domains the data lock on the common lease file. */
  lemma PublisherWorksElsewhere(t: Topology, moves: Moves, d: Disk, l: Lease, o: Lease)
    requires Separated(t, moves) && LeaseWithin(moves, l) && LeaseWithin(moves, o)
    requires LocalOk(d, l) && LocalOk(d, o) && Apart(t, l, o)
    requires Publishing(l) && Sighted(o)
    ensures SlotOf(o) != SlotOf(l)
  {
    assert May(moves, PlaceOf(l)) && May(moves, PlaceOf(o));
  }

  lemma StepLeavesSteady(t: Topology, moves: Moves, d: Disk, l: Lease, step: Step, o: Lease)
    requires Separated(t, moves) && LeaseWithin(moves, l) && LeaseWithin(moves, o)
    requires DiskOk(d) && LocalOk(d, l) && OwnsFresh(d, l) && LocalOk(d, o)
    requires Apart(t, l, o) && CanStep(t, d, l, step) && Steady(d, o)
    ensures Steady(DiskAfter(t, d, l, step), o)
  {
    assert forall k | k in d.slots :: d.slots[k] in d.slots.Values;
    TouchesOwnTrees(t, d, l, step);
    if Publishing(l) && Sighted(o) {
      PublisherWorksElsewhere(t, moves, d, l, o);
    }
  }

  lemma TakeKeepsSteady(t: Topology, moves: Moves, s: State, pid: Pid, step: Step, q: Pid)
    requires SnapshotInv(t, moves, s) && Separated(t, moves) && Enabled(t, s, Take(pid, step)) && q in s.leases
    ensures var d' := DiskAfter(t, s.disk, s.leases[pid], step);
            Steady(d', if q == pid then LeaseAfter(t, s.disk, s.leases[pid], step) else s.leases[q])
  {
    var l := s.leases[pid];
    assert LocalOk(s.disk, l) && OwnsFresh(s.disk, l);
    if q == pid {
      StepKeepsSteady(t, s.disk, l, step);
    } else {
      assert Apart(t, l, s.leases[q]) && LocalOk(s.disk, s.leases[q]);
      StepLeavesSteady(t, moves, s.disk, l, step, s.leases[q]);
    }
  }

  lemma TakeKeepsSnapshots(t: Topology, moves: Moves, s: State, pid: Pid, step: Step)
    requires SnapshotInv(t, moves, s) && Enabled(t, s, Take(pid, step)) && Allows(moves, s, Take(pid, step))
    ensures SnapshotInv(t, moves, Effect(t, s, Take(pid, step)))
  {
    var s' := Effect(t, s, Take(pid, step));
    TakeKeepsInv(t, s, pid, step);
    assert LocksOk(s.leases[pid]);
    StepKeepsLeaseWithin(t, moves, s.disk, s.leases[pid], step);
    if Separated(t, moves) {
      forall q | q in s'.leases ensures Steady(s'.disk, s'.leases[q]) {
        TakeKeepsSteady(t, moves, s, pid, step, q);
      }
    }
  }

  lemma EveryStepKeepsSnapshots(t: Topology, moves: Moves, s: State, a: Action)
    requires SnapshotInv(t, moves, s) && Enabled(t, s, a) && Allows(moves, s, a)
    ensures SnapshotInv(t, moves, Effect(t, s, a))
  {
    EveryStepKeepsInv(t, s, a);
    if a.Take? {
      TakeKeepsSnapshots(t, moves, s, a.pid, a.step);
    }
  }

  lemma {:induction false} RunKeepsSnapshots(t: Topology, moves: Moves, s: State, actions: seq<Action>, s': State)
    requires SnapshotInv(t, moves, s) && RunWithin(t, moves, s, actions, s')
    ensures SnapshotInv(t, moves, s')
    decreases |actions|
  {
    if actions != [] {
      EveryStepKeepsSnapshots(t, moves, s, actions[0]);
      RunKeepsSnapshots(t, moves, Effect(t, s, actions[0]), actions[1..], s');
    }
  }

  lemma ReachableSnapshots(t: Topology, moves: Moves, s: State)
    requires ReachableWithin(t, moves, s)
    ensures SnapshotInv(t, moves, s)
  {
    var s0: State, actions: seq<Action> :|
      Initial(s0) && DiskWithin(moves, s0.disk) && RunWithin(t, moves, s0, actions, s);
    RunKeepsSnapshots(t, moves, s0, actions, s);
  }

  // ---- one generation ---------------------------------------------------------------

  /** Everything an active reader has read through its anchor is one generation: the content
      the anchored tree had on activation and still has, and that tree is still in place. */
  lemma ReadsAreOneGeneration(t: Topology, moves: Moves, s: State, r: Pid)
    requires ReachableWithin(t, moves, s) && Separated(t, moves)
    requires r in s.leases && Reading(s.leases[r]) && s.leases[r].anchor.Some?
    ensures var l := s.leases[r];
            && Lookup(s.disk.slots, SlotOf(l)) == l.anchor
            && l.generation.Some? && Lookup(s.disk.content, l.anchor.value) == l.generation
            && forall i | 0 <= i < |l.observed| :: l.observed[i] == l.generation.value
  {
    ReachableSnapshots(t, moves, s);
    assert Steady(s.disk, s.leases[r]);
  }

  /** No step of anybody, taken while the reader is active, publishes over its tree, rewrites
      it, or deletes it. */
  lemma NothingOverlapsARead(t: Topology, moves: Moves, s: State, r: Pid, a: Action)
    requires ReachableWithin(t, moves, s) && Separated(t, moves) && Enabled(t, s, a)
    requires r in s.leases && Reading(s.leases[r]) && s.leases[r].anchor.Some?
    ensures var l, d, d' := s.leases[r], s.disk, Effect(t, s, a).disk;
            && Lookup(d'.slots, SlotOf(l)) == Lookup(d.slots, SlotOf(l))
            && Lookup(d'.content, l.anchor.value) == Lookup(d.content, l.anchor.value)
  {
    ReachableSnapshots(t, moves, s);
    var l := s.leases[r];
    assert LocalOk(s.disk, l) && Steady(s.disk, l);
    assert SlotTree(s.disk, l).value in s.disk.slots.Values;
    if a.Take? {
      var o := s.leases[a.pid];
      assert LocalOk(s.disk, o) && OwnsFresh(s.disk, o);
      assert forall k | k in s.disk.slots :: s.disk.slots[k] in s.disk.slots.Values;
      TouchesOwnTrees(t, s.disk, o, a.step);
      if Publishing(o) {
        assert Apart(t, o, l);
        PublisherWorksElsewhere(t, moves, s.disk, o, l);
      }
    }
  }

  /** Freshness of an anchor: the tree an active reader reads from is the one the artifact's path
      led to at an instant of its acquisition at which it already held all its locks, however
      old the anchor it had prepared. */
  lemma AnchorIsFresh(t: Topology, moves: Moves, s0: State, actions: seq<Action>, s: State, r: Pid)
    requires Initial(s0) && DiskWithin(moves, s0.disk) && RunWithin(t, moves, s0, actions, s) && Separated(t, moves)
    requires r in s.leases && Reading(s.leases[r])
    ensures WasCurrent(t, s0, actions, r, s.leases[r].art, s.leases[r].anchor)
  {
    WithinIsExecution(t, moves, s0, actions, s);
    SeenWasCurrent(t, s0, actions, s, r);
    RunKeepsSnapshots(t, moves, s0, actions, s);
    assert Steady(s.disk, s.leases[r]);
  }

  /** The lock on the diagnostic lease file is not contended where no such file is found in two
      domains: whoever reaches it is alone, or shares it with readers. */
  lemma DataLockNeverWaits(t: Topology, moves: Moves, s: State, p: Pid)
    requires ReachableWithin(t, moves, s) && OwnLeaseFiles(t, moves)
    requires p in s.leases && CanStep(t, s.disk, s.leases[p], TakeData)
    ensures Enabled(t, s, Take(p, TakeData))
  {
    ReachableSnapshots(t, moves, s);
    var l := s.leases[p];
    assert LocalOk(s.disk, l) && LeaseWithin(moves, l);
    forall q | q in s.leases && q != p ensures Permits(t, s.leases[q], l, TakeData) {
      var o := s.leases[q];
      assert Apart(t, l, o) && LocalOk(s.disk, o) && LeaseWithin(moves, o);
      assert May(moves, PlaceOf(l)) && (o.data != Unlocked ==> May(moves, PlaceOf(o)));
    }
  }
}
