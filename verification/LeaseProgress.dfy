/** Leases get on: one that is released gives everything back, and one that nobody keeps out and
    whose names stay in place becomes active. */
module LeaseProgress {
  import opened Wrappers
  import opened LeaseProtocol
  import opened LeaseSafety
  import opened LeaseTheorems
  import opened LeaseSnapshots

  /** A run of steps of one lease. */
  predicate OwnSteps(actions: seq<Action>, p: Pid) {
    forall a | a in actions :: a.Take? && a.pid == p
  }

  lemma OneStep(t: Topology, s: State, a: Action, rest: seq<Action>, s': State)
    requires Enabled(t, s, a) && Execution(t, Effect(t, s, a), rest, s')
    ensures Execution(t, s, [a] + rest, s')
  {
    assert ([a] + rest)[1..] == rest;
  }

  // ---- leaving ----------------------------------------------------------------------

  /** The steps that are left of a release. */
  function Leaving(p: Pid): seq<Action> { [Take(p, DropData), Take(p, DropDomain), Take(p, DropGate)] }

  /** The state with another lease object for `p`. */
  function With(s: State, p: Pid, l: Lease): State { s.(leases := s.leases[p := l]) }

  lemma OneLeft(t: Topology, s: State, p: Pid)
    requires p in s.leases && s.leases[p].at == Closing && s.leases[p].data == s.leases[p].domain == Unlocked
    ensures Execution(t, s, Leaving(p)[2..], s.(leases := s.leases - {p}))
  {
    OneStep(t, s, Take(p, DropGate), [], s.(leases := s.leases - {p}));
    assert Leaving(p)[2..] == [Take(p, DropGate)] + [];
  }

  lemma TwoLeft(t: Topology, s: State, p: Pid)
    requires p in s.leases && s.leases[p].at == Closing && s.leases[p].data == Unlocked
    ensures Execution(t, s, Leaving(p)[1..], s.(leases := s.leases - {p}))
  {
    var s1 := With(s, p, s.leases[p].(domain := Unlocked));
    assert Effect(t, s, Take(p, DropDomain)) == s1;
    OneLeft(t, s1, p);
    assert s1.leases - {p} == s.leases - {p};
    OneStep(t, s, Take(p, DropDomain), Leaving(p)[2..], s.(leases := s.leases - {p}));
    assert Leaving(p)[1..] == [Take(p, DropDomain)] + Leaving(p)[2..];
  }

  lemma ClosingLeaves(t: Topology, s: State, p: Pid)
    requires p in s.leases && s.leases[p].at == Closing
    ensures Execution(t, s, Leaving(p), s.(leases := s.leases - {p}))
  {
    var s1 := With(s, p, s.leases[p].(data := Unlocked));
    assert Effect(t, s, Take(p, DropData)) == s1;
    TwoLeft(t, s1, p);
    assert s1.leases - {p} == s.leases - {p};
    OneStep(t, s, Take(p, DropData), Leaving(p)[1..], s.(leases := s.leases - {p}));
    assert Leaving(p) == [Take(p, DropData)] + Leaving(p)[1..];
  }

  /** From every state, at every point of its life, a lease can be released: after at most four steps
      of its own it is gone and nothing else has changed. */
  lemma EveryLeaseCanLeave(t: Topology, s: State, p: Pid) returns (actions: seq<Action>, s': State)
    requires p in s.leases
    ensures |actions| <= 4 && OwnSteps(actions, p) && Execution(t, s, actions, s')
    ensures s'.disk == s.disk && s'.leases == s.leases - {p}
  {
    s' := s.(leases := s.leases - {p});
    if s.leases[p].at == Closing {
      actions := Leaving(p);
      ClosingLeaves(t, s, p);
    } else {
      actions := [Take(p, BeginRelease)] + Leaving(p);
      var s1 := With(s, p, Close(s.leases[p]));
      assert Effect(t, s, Take(p, BeginRelease)) == s1;
      ClosingLeaves(t, s1, p);
      assert s1.(leases := s1.leases - {p}) == s';
      OneStep(t, s, Take(p, BeginRelease), Leaving(p), s');
    }
  }

  /** ... and whatever another lease could not do because of it alone is then possible. */
  lemma LeavingLetsOthersGo(t: Topology, s: State, p: Pid, q: Pid, step: Step) returns (actions: seq<Action>, s': State)
    requires p in s.leases && q in s.leases && p != q && CanStep(t, s.disk, s.leases[q], step)
    requires forall o | o in s.leases && o != q && o != p :: Permits(t, s.leases[o], s.leases[q], step)
    ensures |actions| <= 4 && OwnSteps(actions, p) && Execution(t, s, actions, s')
    ensures s'.disk == s.disk && s'.leases == s.leases - {p} && Enabled(t, s', Take(q, step))
  {
    actions, s' := EveryLeaseCanLeave(t, s, p);
  }

  // ---- becoming active --------------------------------------------------------------

  predicate Approaching(l: Lease) { l.at != Active && l.at != Closing }

  /** The lease file name that belongs to the artifact now. */
  function FileSlot(d: Disk, a: Artifact): Slot
    requires a.parent in d.parentAt
  {
    Slot(d.parentAt[a.parent], a.name)
  }

  /** The path exists and leads to the directory the lease has opened; the lease file is `f`, or is
      still to be created with that inode; the identity file can be read. */
  predicate InPlace(d: Disk, l: Lease, f: Inode) {
    && l.art.parent in d.parentAt && (l.at != Created ==> l.parent == d.parentAt[l.art.parent])
    && (Lookup(d.leaseAt, FileSlot(d, l.art)) == Some(f)
        || (!KnowsLeaseFile(l) && Lookup(d.leaseAt, FileSlot(d, l.art)) == None))
    && (if KnowsLeaseFile(l) then l.lease == f else RecordOf(d, l.art) != Garbled)
    && (l.at == Marked ==> l.anchor == SlotTree(d, l))
  }

  /** The lease `o` has no lock that keeps another one from gate and domain of the artifact, or from
      the lease file `f`. */
  predicate OutOfTheWay(t: Topology, o: Lease, a: Artifact, f: Inode) {
    && !Blocks(t, o, t.gateInode(a.domain), true) && !Blocks(t, o, t.domainInode(a.domain), true)
    && (o.data == Unlocked || o.lease != f)
  }

  /** What the lease does next; `created` is the inode of a lease file that it has to create. */
  function NextStep(l: Lease, created: Inode): Step
    requires Approaching(l)
  {
    match l.at
    case Created => OpenParent
    case Opened => TakeGate
    case Gated | Drained | Joined | DataChecked => ValidateParent
    case Admitted => if l.exclusive then TakeDomain else Compare(created)
    case DrainedValid => Compare(created)
    case Compared => if l.exclusive then RevalidateLease else TakeDomain
    case JoinedValid | DataLocked => RevalidateLease
    case Coordinated => if l.changed then Truncate else TakeData
    case Truncated => WriteRecord
    case Recorded => if l.exclusive then TakeData else DropForShared
    case Gap => RetakeShared
    case Settled => TakeData
    case Validated => Mark
    case Marked => OpenGate
  }

  /** Steps that are left at most. */
  function Distance(l: Lease): nat {
    match l.at
    case Created => 20
    case Opened => 19
    case Gated => 18
    case Admitted => 17
    case Drained => 16
    case DrainedValid => 15
    case Compared => 14
    case Joined => 13
    case JoinedValid => 12
    case Coordinated => 11
    case Truncated => 10
    case Recorded => 9
    case Gap => 8
    case Settled => 7
    case DataLocked => 6
    case DataChecked => 5
    case Validated => 4
    case Marked => 3
    case Active => 0
    case Closing => 0
  }

  lemma NextIsPermitted(t: Topology, o: Lease, l: Lease, f: Inode)
    requires Approaching(l) && OutOfTheWay(t, o, l.art, f) && (KnowsLeaseFile(l) ==> l.lease == f)
    ensures Permits(t, o, l, NextStep(l, f))
  {
  }

  lemma NextIsPossible(t: Topology, d: Disk, l: Lease, f: Inode)
    requires Approaching(l) && LocksOk(l) && InPlace(d, l, f)
    ensures CanStep(t, d, l, NextStep(l, f))
  {
  }

  /** What one step keeps and brings. */
  ghost predicate Nearer(d: Disk, l: Lease, d': Disk, l': Lease, f: Inode) {
    && l'.art == l.art && l'.exclusive == l.exclusive && Distance(l') < Distance(l)
    && d'.parentAt == d.parentAt && d'.slots == d.slots && d'.content == d.content
    && InPlace(d', l', f) && l'.at != Closing && (l'.at == Active ==> l'.anchor == SlotTree(d', l'))
  }

  lemma ValidationComesNearer(t: Topology, d: Disk, l: Lease, f: Inode)
    requires Approaching(l) && InPlace(d, l, f) && NextStep(l, f).ValidateParent? && CanStep(t, d, l, ValidateParent)
    ensures Nearer(d, l, DiskAfter(t, d, l, ValidateParent), LeaseAfter(t, d, l, ValidateParent), f)
  {
  }

  lemma EarlyComesNearer(t: Topology, d: Disk, l: Lease, f: Inode)
    requires Approaching(l) && LocksOk(l) && InPlace(d, l, f) && CanStep(t, d, l, NextStep(l, f))
    requires Early(NextStep(l, f)) && !NextStep(l, f).ValidateParent? && !NextStep(l, f).Compare?
    ensures var step := NextStep(l, f); Nearer(d, l, DiskAfter(t, d, l, step), LeaseAfter(t, d, l, step), f)
  {
  }

  lemma ComparingComesNearer(t: Topology, d: Disk, l: Lease, f: Inode)
    requires Approaching(l) && InPlace(d, l, f) && NextStep(l, f).Compare? && CanStep(t, d, l, Compare(f))
    ensures Nearer(d, l, DiskAfter(t, d, l, Compare(f)), LeaseAfter(t, d, l, Compare(f)), f)
  {
  }

  lemma LateComesNearer(t: Topology, d: Disk, l: Lease, f: Inode)
    requires Approaching(l) && LocksOk(l) && InPlace(d, l, f) && CanStep(t, d, l, NextStep(l, f))
    requires !Early(NextStep(l, f)) && !NextStep(l, f).Mark? && !RewritesRecord(NextStep(l, f))
    ensures var step := NextStep(l, f); Nearer(d, l, DiskAfter(t, d, l, step), LeaseAfter(t, d, l, step), f)
  {
  }

  predicate RewritesRecord(step: Step) { step.Truncate? || step.WriteRecord? }

  lemma RewritingComesNearer(t: Topology, d: Disk, l: Lease, f: Inode)
    requires Approaching(l) && LocksOk(l) && InPlace(d, l, f) && CanStep(t, d, l, NextStep(l, f)) && RewritesRecord(NextStep(l, f))
    ensures var step := NextStep(l, f); Nearer(d, l, DiskAfter(t, d, l, step), LeaseAfter(t, d, l, step), f)
  {
  }

  lemma MarkingComesNearer(t: Topology, d: Disk, l: Lease, f: Inode)
    requires InPlace(d, l, f) && CanStep(t, d, l, Mark)
    ensures Nearer(d, l, DiskAfter(t, d, l, Mark), LeaseAfter(t, d, l, Mark), f)
  {
  }

  lemma NextComesNearer(t: Topology, d: Disk, l: Lease, f: Inode)
    requires Approaching(l) && LocksOk(l) && InPlace(d, l, f)
    ensures var step := NextStep(l, f);
            CanStep(t, d, l, step) && Nearer(d, l, DiskAfter(t, d, l, step), LeaseAfter(t, d, l, step), f)
  {
    NextIsPossible(t, d, l, f);
    if NextStep(l, f).ValidateParent? {
      ValidationComesNearer(t, d, l, f);
    } else if NextStep(l, f).Compare? {
      ComparingComesNearer(t, d, l, f);
    } else if Early(NextStep(l, f)) {
      EarlyComesNearer(t, d, l, f);
    } else if NextStep(l, f).Mark? {
      MarkingComesNearer(t, d, l, f);
    } else if RewritesRecord(NextStep(l, f)) {
      RewritingComesNearer(t, d, l, f);
    } else {
      LateComesNearer(t, d, l, f);
    }
  }

  /** `p` is on its way or active, and nobody and nothing disturbs it. */
  ghost predicate Undisturbed(t: Topology, s: State, p: Pid, f: Inode) {
    && p in s.leases && s.leases[p].at != Closing && LocksOk(s.leases[p]) && InPlace(s.disk, s.leases[p], f)
    && (s.leases[p].at == Active ==> s.leases[p].anchor == SlotTree(s.disk, s.leases[p]))
    && forall q | q in s.leases && q != p :: OutOfTheWay(t, s.leases[q], s.leases[p].art, f)
  }

  lemma NextStaysUndisturbed(t: Topology, s: State, p: Pid, f: Inode) returns (m: State)
    requires Undisturbed(t, s, p, f) && Approaching(s.leases[p])
    ensures var a := Take(p, NextStep(s.leases[p], f)); Enabled(t, s, a) && m == Effect(t, s, a)
    ensures Undisturbed(t, m, p, f) && m.leases == s.leases[p := m.leases[p]]
    ensures Nearer(s.disk, s.leases[p], m.disk, m.leases[p], f)
  {
    var l := s.leases[p];
    var step := NextStep(l, f);
    NextComesNearer(t, s.disk, l, f);
    forall q | q in s.leases && q != p ensures Permits(t, s.leases[q], l, step) {
      NextIsPermitted(t, s.leases[q], l, f);
    }
    StepKeepsLocks(t, s.disk, l, step);
    m := Effect(t, s, Take(p, step));
  }

  /** What a run of own steps leaves as it was. */
  ghost predicate OnlyMoved(s: State, s': State, p: Pid) {
    && p in s.leases && p in s'.leases && s'.leases == s.leases[p := s'.leases[p]]
    && s'.leases[p].art == s.leases[p].art && s'.leases[p].exclusive == s.leases[p].exclusive
    && s'.disk.parentAt == s.disk.parentAt && s'.disk.slots == s.disk.slots && s'.disk.content == s.disk.content
  }

  /** A lease that nobody keeps out gets there by its own steps. */
  lemma {:induction false} GetsThere(t: Topology, s: State, p: Pid, f: Inode) returns (actions: seq<Action>, s': State)
    requires Undisturbed(t, s, p, f)
    ensures |actions| <= Distance(s.leases[p]) && OwnSteps(actions, p) && Execution(t, s, actions, s')
    ensures OnlyMoved(s, s', p) && Undisturbed(t, s', p, f) && s'.leases[p].at == Active
    decreases Distance(s.leases[p])
  {
    if s.leases[p].at == Active {
      actions, s' := [], s;
      assert s.leases == s.leases[p := s.leases[p]];
    } else {
      var m := NextStaysUndisturbed(t, s, p, f);
      var a, rest := Take(p, NextStep(s.leases[p], f)), [];
      rest, s' := GetsThere(t, m, p, f);
      actions := [a] + rest;
      OneStep(t, s, a, rest, s');
    }
  }

  /** Whatever has happened before: a lease on its way whose names stay in place, whose identity file
      can be read, and that no lock of another lease keeps out, becomes active by at most twenty steps
      of its own.  It is then anchored at the tree its path leads to, all its locks are held in its
      mode, and the record names its two inodes. */
  lemma UndisturbedLeaseBecomesActive(t: Topology, s: State, p: Pid, f: Inode) returns (actions: seq<Action>, s': State)
    requires Reachable(t, s) && p in s.leases && Approaching(s.leases[p]) && InPlace(s.disk, s.leases[p], f)
    requires forall q | q in s.leases && q != p :: OutOfTheWay(t, s.leases[q], s.leases[p].art, f)
    ensures |actions| <= 20 && OwnSteps(actions, p) && Execution(t, s, actions, s')
    ensures OnlyMoved(s, s', p)
    ensures var l := s'.leases[p];
            && l.at == Active && l.anchor == Resolve(s.disk, l.art)
            && l.domain == l.data == (if l.exclusive then Exclusive else Shared) && l.gate == l.exclusive
            && RecordOf(s'.disk, l.art) == Identity(l.parent, l.lease)
            && ParentIsCurrent(s'.disk, l) && LeaseFileIsCurrent(s'.disk, l)
  {
    ReachableInv(t, s);
    assert LocalOk(s.disk, s.leases[p]);
    actions, s' := GetsThere(t, s, p, f);
    RunKeepsInv(t, s, actions, s');
    assert LocalOk(s'.disk, s'.leases[p]);
  }

  // ---- what an active lease does ----------------------------------------------------

  /** The disk with the new tree, and then with its entry in place. */
  function StagedDisk(d: Disk, tree: Tree, written: Content): Disk { d.(content := d.content[tree := written]) }

  function ExchangedDisk(d: Disk, l: Lease, tree: Tree, written: Content): Disk {
    StagedDisk(d, tree, written).(slots := d.slots[SlotOf(l) := tree])
  }

  lemma Stages(t: Topology, s: State, p: Pid, tree: Tree, written: Content)
    requires p in s.leases && Publishing(s.leases[p]) && s.leases[p].staging.None? && tree !in s.disk.content
    ensures Enabled(t, s, Take(p, Stage(tree, written)))
    ensures Effect(t, s, Take(p, Stage(tree, written)))
            == With(s, p, s.leases[p].(staging := Some(tree))).(disk := StagedDisk(s.disk, tree, written))
  {
  }

  lemma Exchanges(t: Topology, s: State, p: Pid, l: Lease, d: Disk, tree: Tree, written: Content)
    requires p in s.leases && s.leases[p] == l.(staging := Some(tree)) && s.disk == StagedDisk(d, tree, written)
    requires Publishing(l) && l.staging.None? && l.backup.None?
    ensures Enabled(t, s, Take(p, Exchange))
    ensures Effect(t, s, Take(p, Exchange))
            == With(s, p, l.(backup := SlotTree(d, l))).(disk := ExchangedDisk(d, l, tree, written))
  {
  }

  /** A publisher that is active puts a new tree under the artifact's path; ... */
  lemma PublisherReplaces(t: Topology, s: State, p: Pid, tree: Tree, written: Content) returns (actions: seq<Action>, s': State)
    requires p in s.leases && Publishing(s.leases[p]) && ParentIsCurrent(s.disk, s.leases[p]) && tree !in s.disk.content
    requires s.leases[p].staging.None? && s.leases[p].backup.None?
    ensures |actions| <= 2 && OwnSteps(actions, p) && Execution(t, s, actions, s')
    ensures s' == With(s, p, s.leases[p].(backup := SlotTree(s.disk, s.leases[p])))
                  .(disk := ExchangedDisk(s.disk, s.leases[p], tree, written))
    ensures Resolve(s'.disk, s.leases[p].art) == Some(tree) && Lookup(s'.disk.content, tree) == Some(written)
    ensures forall k | k != SlotOf(s.leases[p]) :: Lookup(s'.disk.slots, k) == Lookup(s.disk.slots, k)
  {
    var l := s.leases[p];
    var s1 := With(s, p, l.(staging := Some(tree))).(disk := StagedDisk(s.disk, tree, written));
    Stages(t, s, p, tree, written);
    Exchanges(t, s1, p, l, s.disk, tree, written);
    s' := With(s1, p, l.(backup := SlotTree(s.disk, l))).(disk := ExchangedDisk(s.disk, l, tree, written));
    OneStep(t, s1, Take(p, Exchange), [], s');
    OneStep(t, s, Take(p, Stage(tree, written)), [Take(p, Exchange)] + [], s');
    actions := [Take(p, Stage(tree, written))] + ([Take(p, Exchange)] + []);
    assert s1.leases[p := s'.leases[p]] == s.leases[p := s'.leases[p]];
  }

  /** ... the old tree is its backup then, which it can delete. */
  lemma BackupGoes(t: Topology, s: State, p: Pid)
    requires p in s.leases && Publishing(s.leases[p]) && s.leases[p].backup.Some?
    ensures var a := Take(p, Discard);
            && Enabled(t, s, a)
            && Effect(t, s, a).disk == s.disk.(content := s.disk.content - {s.leases[p].backup.value})
            && Effect(t, s, a).leases == s.leases[p := s.leases[p].(backup := None)]
  {
  }

  /** A reader that is active reads what is in the tree it has anchored. */
  lemma ReaderReads(t: Topology, s: State, p: Pid)
    requires p in s.leases && s.leases[p].at == Active && s.leases[p].anchor.Some?
    requires s.leases[p].anchor.value in s.disk.content
    ensures Enabled(t, s, Take(p, Read))
    ensures var l, l' := s.leases[p], Effect(t, s, Take(p, Read)).leases[p];
            l' == l.(observed := l.observed + [s.disk.content[l.anchor.value]])
  {
  }
}
