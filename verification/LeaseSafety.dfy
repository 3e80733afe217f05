/** What every interleaving of leases, crashes and replaced directories keeps. */
module LeaseSafety {
  import opened Wrappers
  import opened LeaseProtocol

  // ---- the invariant ----------------------------------------------------------------

  /** The domain lock a lease is entitled to.  In the gap of a downgrade nothing is held, yet
      the turnstile keeps the exclusive claim alive. */
  function Claim(l: Lease): Mode {
    if l.at == Gap then Exclusive else l.domain
  }

  /** Locks two leases of one domain may hold at the same time. */
  predicate Compatible(t: Topology, a: Lease, b: Lease) {
    DomainOf(a) == DomainOf(b) ==>
      && !(a.gate && b.gate)
      && (Claim(a) == Exclusive ==> Claim(b) == Unlocked)
      && (Claim(b) == Exclusive ==> Claim(a) == Unlocked)
  }

  function Owned(l: Lease): set<Tree> {
    (if l.staging.Some? then {l.staging.value} else {}) + (if l.backup.Some? then {l.backup.value} else {})
  }

  /** Data locks on one lease file, whatever the domains. */
  predicate DataCompatible(a: Lease, b: Lease) {
    a.data != Unlocked && b.data != Unlocked && a.lease == b.lease ==> a.data == b.data == Shared
  }

  predicate Apart(t: Topology, a: Lease, b: Lease) {
    Compatible(t, a, b) && DataCompatible(a, b) && Owned(a) !! Owned(b)
  }

  predicate GateExpected(l: Lease) {
    match l.at
    case Created | Opened => false
    case Active => l.exclusive
    case _ => true
  }

  function DomainExpected(l: Lease): Mode {
    match l.at
    case Created | Opened | Gated | Admitted | Gap => Unlocked
    case Compared => if l.exclusive then Exclusive else Unlocked
    case Joined | JoinedValid | Coordinated =>
      if l.exclusive || l.changed then Exclusive else Shared
    case Drained | DrainedValid | Truncated | Recorded => Exclusive
    case _ => if l.exclusive then Exclusive else Shared
  }

  predicate PointFits(l: Lease) {
    match l.at
    case Drained | DrainedValid => l.exclusive
    case Joined | JoinedValid | Marked => !l.exclusive
    case Gap | Settled => !l.exclusive && l.changed
    case Truncated | Recorded => l.changed
    case _ => true
  }

  predicate HoldsData(l: Lease) {
    (l.at.DataLocked? || l.at.DataChecked? || l.at.Validated? || l.at.Marked? || l.at.Active?)
  }

  /** The lease counts on the identity file naming exactly its own two inodes. */
  predicate ReliesOnRecord(l: Lease) {
    match l.at
    case Compared | Joined | JoinedValid | Coordinated => !l.changed
    case Recorded | Gap | Settled => true
    case _ => HoldsData(l)
  }

  /** The lease has found another identity on file and not yet rewritten it. */
  predicate SawDifference(l: Lease) {
    (l.at.Compared? || l.at.Joined? || l.at.JoinedValid? || l.at.Coordinated?) && l.changed
  }

  predicate LocksOk(l: Lease) {
    && PointFits(l)
    && (l.at != Closing ==>
          && l.gate == GateExpected(l)
          && l.domain == DomainExpected(l)
          && l.data == (if !HoldsData(l) then Unlocked else if l.exclusive then Exclusive else Shared))
  }

  predicate LocalOk(d: Disk, l: Lease) {
    && LocksOk(l)
    && RecordFits(d, l)
    && (l.data != Unlocked ==> l.data == l.domain)
    && (Owned(l) != {} ==> l.at == Active && l.exclusive)
  }

  predicate OwnsFresh(d: Disk, l: Lease) {
    && (forall x | x in Owned(l) :: x in d.content && x !in d.slots.Values)
    && (l.staging.Some? && l.backup.Some? ==> l.staging != l.backup)
  }

  ghost predicate DiskOk(d: Disk) {
    && (forall a, b | a in d.slots && b in d.slots && a != b :: d.slots[a] != d.slots[b])
    && (forall a | a in d.slots :: d.slots[a] in d.content)
  }

  ghost predicate Inv(t: Topology, s: State) {
    && DiskOk(s.disk)
    && (forall p | p in s.leases :: LocalOk(s.disk, s.leases[p]))
    && (forall p | p in s.leases :: OwnsFresh(s.disk, s.leases[p]))
    && (forall p, q | p in s.leases && q in s.leases && p != q :: Apart(t, s.leases[p], s.leases[q]))
  }

  /** Start: any disk whose directory entries name distinct trees, and no lease anywhere. */
  ghost predicate Initial(s: State) {
    DiskOk(s.disk) && s.leases == map[]
  }

  ghost predicate Reachable(t: Topology, s: State) {
    exists s0: State, actions: seq<Action> :: Initial(s0) && Execution(t, s0, actions, s)
  }

  // ---- preservation -----------------------------------------------------------------

  /** The steps that only look. */
  lemma CheckKeepsLocks(t: Topology, d: Disk, l: Lease, step: Step)
    requires LocksOk(l) && CanStep(t, d, l, step)
    requires step.OpenParent? || step.PrepareAnchor? || step.ValidateParent? || step.RevalidateLease?
    ensures LocksOk(LeaseAfter(t, d, l, step))
  {
  }

  lemma EntryKeepsLocks(t: Topology, d: Disk, l: Lease, step: Step)
    requires LocksOk(l) && CanStep(t, d, l, step)
    requires step.TakeGate? || step.TakeDomain? || step.Compare?
    ensures LocksOk(LeaseAfter(t, d, l, step))
  {
  }

  lemma ActiveKeepsLocks(t: Topology, d: Disk, l: Lease, step: Step)
    requires LocksOk(l) && CanStep(t, d, l, step)
    requires step.OpenGate? || step.Read? || Publishes(step)
    ensures LocksOk(LeaseAfter(t, d, l, step))
  {
  }

  lemma ReleaseKeepsLocks(t: Topology, d: Disk, l: Lease, step: Step)
    requires CanStep(t, d, l, step)
    requires step.BeginRelease? || step.DropData? || step.DropDomain? || step.DropGate?
    ensures LocksOk(LeaseAfter(t, d, l, step))
  {
  }

  lemma StepKeepsLocks(t: Topology, d: Disk, l: Lease, step: Step)
    requires LocksOk(l) && CanStep(t, d, l, step)
    ensures LocksOk(LeaseAfter(t, d, l, step))
  {
    if step.OpenParent? || step.PrepareAnchor? || step.ValidateParent? || step.RevalidateLease? {
      CheckKeepsLocks(t, d, l, step);
    } else if Early(step) {
      EntryKeepsLocks(t, d, l, step);
    } else if step.OpenGate? || step.Read? || Publishes(step) {
      ActiveKeepsLocks(t, d, l, step);
    } else if Late(step) {
      ReleaseKeepsLocks(t, d, l, step);
    }
  }

  lemma StepKeepsData(t: Topology, d: Disk, l: Lease, step: Step)
    requires LocksOk(l) && CanStep(t, d, l, step) && (l.data != Unlocked ==> l.data == l.domain)
    ensures var l' := LeaseAfter(t, d, l, step); l'.data != Unlocked ==> l'.data == l'.domain
  {
    if Early(step) {
    } else if Late(step) {
    }
  }

  lemma StepKeepsDisk(t: Topology, d: Disk, l: Lease, step: Step)
    requires DiskOk(d) && OwnsFresh(d, l) && CanStep(t, d, l, step)
    ensures DiskOk(DiskAfter(t, d, l, step))
  {
    if !Publishes(step) {
      TouchesNoTrees(t, d, l, step);
    } else {
      assert forall a | a in d.slots :: d.slots[a] in d.slots.Values;
    }
  }

  lemma ExchangeKeepsOwned(t: Topology, d: Disk, l: Lease)
    requires DiskOk(d) && OwnsFresh(d, l) && CanStep(t, d, l, Exchange)
    ensures OwnsFresh(DiskAfter(t, d, l, Exchange), LeaseAfter(t, d, l, Exchange))
  {
    var d' := DiskAfter(t, d, l, Exchange);
    if SlotOf(l) in d.slots {
      assert d.slots[SlotOf(l)] in d.slots.Values;
    }
    assert forall x | x in d'.slots.Values :: x in d.slots.Values || x == l.staging.value;
  }

  lemma PublishKeepsOwned(t: Topology, d: Disk, l: Lease, step: Step)
    requires DiskOk(d) && OwnsFresh(d, l) && CanStep(t, d, l, step) && Publishes(step) && !step.Exchange?
    ensures OwnsFresh(DiskAfter(t, d, l, step), LeaseAfter(t, d, l, step)) && Publishing(LeaseAfter(t, d, l, step))
  {
    assert DiskAfter(t, d, l, step).slots == d.slots;
  }

  /** A lease that does not publish owns nothing afterwards, or what it owned before. */
  lemma OtherKeepsOwned(t: Topology, d: Disk, l: Lease, step: Step)
    requires CanStep(t, d, l, step) && !Publishes(step) && (Owned(l) != {} ==> Publishing(l))
    ensures var l' := LeaseAfter(t, d, l, step);
            Owned(l') == {} || (l'.staging == l.staging && l'.backup == l.backup && Publishing(l'))
  {
    StepKeepsTrees(t, d, l, step);
    if Publishing(l) {
      assert Late(step);
    }
  }

  lemma StepKeepsOwned(t: Topology, d: Disk, l: Lease, step: Step)
    requires DiskOk(d) && OwnsFresh(d, l) && CanStep(t, d, l, step)
    requires Owned(l) != {} ==> Publishing(l)
    ensures var l' := LeaseAfter(t, d, l, step);
            OwnsFresh(DiskAfter(t, d, l, step), l') && (Owned(l') != {} ==> Publishing(l'))
  {
    if step.Exchange? {
      ExchangeKeepsOwned(t, d, l);
    } else if Publishes(step) {
      PublishKeepsOwned(t, d, l, step);
    } else {
      OtherKeepsOwned(t, d, l, step);
      TouchesNoTrees(t, d, l, step);
    }
  }

  predicate RecordFits(d: Disk, l: Lease) {
    && (ReliesOnRecord(l) ==> RecordOf(d, l.art) == Identity(l.parent, l.lease))
    && (SawDifference(l) ==> RecordOf(d, l.art) != Identity(l.parent, l.lease))
  }

  lemma EarlyKeepsRecord(t: Topology, d: Disk, l: Lease, step: Step)
    requires LocksOk(l) && CanStep(t, d, l, step) && Early(step) && RecordFits(d, l)
    ensures RecordFits(DiskAfter(t, d, l, step), LeaseAfter(t, d, l, step))
  {
  }

  lemma ActiveKeepsRecord(t: Topology, d: Disk, l: Lease, step: Step)
    requires CanStep(t, d, l, step) && RecordFits(d, l)
    requires step.OpenGate? || step.Read? || Publishes(step)
    ensures RecordFits(DiskAfter(t, d, l, step), LeaseAfter(t, d, l, step))
  {
  }

  lemma ReleaseKeepsRecord(t: Topology, d: Disk, l: Lease, step: Step)
    requires CanStep(t, d, l, step)
    requires step.BeginRelease? || step.DropData? || step.DropDomain? || step.DropGate?
    ensures RecordFits(DiskAfter(t, d, l, step), LeaseAfter(t, d, l, step))
  {
  }

  lemma StepKeepsRecord(t: Topology, d: Disk, l: Lease, step: Step)
    requires LocksOk(l) && CanStep(t, d, l, step) && RecordFits(d, l)
    ensures RecordFits(DiskAfter(t, d, l, step), LeaseAfter(t, d, l, step))
  {
    if Early(step) {
      EarlyKeepsRecord(t, d, l, step);
    } else if step.OpenGate? || step.Read? || Publishes(step) {
      ActiveKeepsRecord(t, d, l, step);
    } else if Late(step) {
      ReleaseKeepsRecord(t, d, l, step);
    }
  }

  /** The lease that steps keeps its own invariant, and the disk stays well formed. */
  lemma StepKeepsOwn(t: Topology, d: Disk, l: Lease, step: Step)
    requires DiskOk(d) && LocalOk(d, l) && OwnsFresh(d, l) && CanStep(t, d, l, step)
    ensures var d', l' := DiskAfter(t, d, l, step), LeaseAfter(t, d, l, step);
            DiskOk(d') && LocalOk(d', l') && OwnsFresh(d', l')
  {
    StepKeepsLocks(t, d, l, step);
    StepKeepsDisk(t, d, l, step);
    StepKeepsData(t, d, l, step);
    StepKeepsOwned(t, d, l, step);
    StepKeepsRecord(t, d, l, step);
  }

  /** What a lease owns after a step: what it owned, a fresh tree, or one from a directory entry. */
  lemma StepOwns(t: Topology, d: Disk, l: Lease, step: Step)
    requires CanStep(t, d, l, step)
    ensures forall x | x in Owned(LeaseAfter(t, d, l, step)) :: x in Owned(l) || x !in d.content || x in d.slots.Values
  {
    if step.Exchange? {
      if SlotOf(l) in d.slots {
        assert d.slots[SlotOf(l)] in d.slots.Values;
      }
    } else if !step.Stage? {
      StepKeepsTrees(t, d, l, step);
    }
  }

  lemma StepKeepsTrees(t: Topology, d: Disk, l: Lease, step: Step)
    requires CanStep(t, d, l, step) && !step.Exchange? && !step.Stage?
    ensures var l' := LeaseAfter(t, d, l, step);
            (l'.staging == l.staging || l'.staging.None?) && (l'.backup == l.backup || l'.backup.None?)
  {
    if Early(step) {
    } else if Late(step) {
    }
  }

  predicate MovesLocks(step: Step) {
    || step.TakeGate? || step.TakeDomain? || step.DropForShared? || step.RetakeShared?
    || step.OpenGate? || step.DropDomain? || step.DropGate?
  }

  /** All other steps leave gate and domain as they are. */
  lemma StepKeepsHold(t: Topology, d: Disk, l: Lease, step: Step)
    requires CanStep(t, d, l, step) && !MovesLocks(step)
    ensures var l' := LeaseAfter(t, d, l, step);
            && l'.art == l.art && l'.gate == l.gate && l'.domain == l.domain
            && l'.at != Gap && (l.at == Gap ==> l'.at == Closing)
  {
    if Early(step) {
    } else if Late(step) {
    }
  }

  /** Only two steps can make a lease claim more than before. */
  lemma StepClaims(t: Topology, d: Disk, l: Lease, step: Step)
    requires LocksOk(l) && CanStep(t, d, l, step)
    ensures var l' := LeaseAfter(t, d, l, step);
            && l'.art == l.art
            && (l'.gate ==> l.gate || step.TakeGate?)
            && (|| step.TakeDomain? || Claim(l') == Claim(l) || Claim(l') == Unlocked
                || (Claim(l') == Shared && Claim(l) == Exclusive))
            && (step.TakeDomain? ==> Claim(l) == Unlocked && l.gate
                                     && Claim(l') == (if l.exclusive || l.changed then Exclusive else Shared))
  {
    if !MovesLocks(step) {
      StepKeepsHold(t, d, l, step);
    }
  }

  lemma StepStaysCompatible(t: Topology, d: Disk, l: Lease, step: Step, o: Lease)
    requires LocksOk(l) && LocksOk(o)
    requires Compatible(t, l, o) && CanStep(t, d, l, step) && Permits(t, o, l, step)
    ensures Compatible(t, LeaseAfter(t, d, l, step), o)
  {
    StepClaims(t, d, l, step);
    if DomainOf(l) == DomainOf(o) {
      if step.TakeGate? {
        assert !Blocks(t, o, t.gateInode(DomainOf(l)), true);
      } else if step.TakeDomain? {
        assert !Blocks(t, o, t.domainInode(DomainOf(l)), l.exclusive || l.changed);
        assert o.at != Gap;
      }
    }
  }

  /** A data lock is taken only in `TakeData`, after the lease file is known. */
  lemma StepTakesData(t: Topology, d: Disk, l: Lease, step: Step)
    requires LocksOk(l) && CanStep(t, d, l, step)
    ensures var l' := LeaseAfter(t, d, l, step);
            l'.data != Unlocked ==> l'.lease == l.lease && (l'.data == l.data || step.TakeData?)
  {
    if Early(step) {
    } else if Late(step) {
    }
  }

  /** Another lease cannot lose its claim to a step that its locks permit. */
  lemma StepStaysApart(t: Topology, d: Disk, l: Lease, step: Step, o: Lease)
    requires LocalOk(d, l) && LocalOk(d, o) && OwnsFresh(d, o)
    requires Apart(t, l, o) && CanStep(t, d, l, step) && Permits(t, o, l, step)
    ensures Apart(t, LeaseAfter(t, d, l, step), o)
  {
    StepStaysCompatible(t, d, l, step, o);
    StepTakesData(t, d, l, step);
    StepOwns(t, d, l, step);
  }

  /** A lease rewrites no identity file but its own, and that only under gate and domain. */
  lemma RewritesOwnRecord(t: Topology, d: Disk, l: Lease, step: Step, art: Artifact)
    requires LocksOk(l) && CanStep(t, d, l, step)
    requires RecordOf(DiskAfter(t, d, l, step), art) != RecordOf(d, art)
    ensures art == l.art && (l.at.Coordinated? || l.at.Truncated?) && l.changed
    ensures l.gate && l.domain == Exclusive
  {
  }

  /** Steps that do not publish leave entries and trees alone; those that publish touch the own
      entry and trees that are in no entry. */
  lemma TouchesOwnTrees(t: Topology, d: Disk, l: Lease, step: Step)
    requires CanStep(t, d, l, step) && OwnsFresh(d, l)
    requires forall x: Tree | x in d.slots.Values :: x in d.content
    ensures !Publishing(l) ==> DiskAfter(t, d, l, step).slots == d.slots && DiskAfter(t, d, l, step).content == d.content
    ensures forall k | k != SlotOf(l) :: Lookup(DiskAfter(t, d, l, step).slots, k) == Lookup(d.slots, k)
    ensures forall x | x in d.slots.Values :: Lookup(DiskAfter(t, d, l, step).content, x) == Lookup(d.content, x)
  {
    if !Publishes(step) {
      TouchesNoTrees(t, d, l, step);
    }
  }

  lemma TouchesNoTrees(t: Topology, d: Disk, l: Lease, step: Step)
    requires CanStep(t, d, l, step) && !Publishes(step)
    ensures DiskAfter(t, d, l, step).slots == d.slots && DiskAfter(t, d, l, step).content == d.content
  {
  }

  lemma OwnsUnnoticed(t: Topology, d: Disk, l: Lease, step: Step, o: Lease)
    requires DiskOk(d) && LocalOk(d, l) && OwnsFresh(d, l) && OwnsFresh(d, o)
    requires Apart(t, l, o) && CanStep(t, d, l, step)
    ensures OwnsFresh(DiskAfter(t, d, l, step), o)
  {
    var d' := DiskAfter(t, d, l, step);
    if step.Exchange? {
      assert forall x | x in d'.slots.Values :: x in d.slots.Values || x == l.staging.value;
    } else {
      assert d'.slots == d.slots;
    }
  }

  /** A step of one lease leaves what every other lease relies on as it was: identity files are
      rewritten only under gate and domain, and trees that are being published or pruned are
      not the ones a reader has anchored. */
  lemma StepUnnoticed(t: Topology, d: Disk, l: Lease, step: Step, o: Lease)
    requires DiskOk(d) && LocalOk(d, l) && OwnsFresh(d, l)
    requires LocalOk(d, o) && OwnsFresh(d, o)
    requires Apart(t, l, o) && CanStep(t, d, l, step)
    ensures LocalOk(DiskAfter(t, d, l, step), o) && OwnsFresh(DiskAfter(t, d, l, step), o)
  {
    OwnsUnnoticed(t, d, l, step, o);
    var d' := DiskAfter(t, d, l, step);
    if (ReliesOnRecord(o) || SawDifference(o)) && RecordOf(d', o.art) != RecordOf(d, o.art) {
      RewritesOwnRecord(t, d, l, step, o.art);
      RelianceIsProtected(t, d, l, o);
    }
  }

  lemma RelianceIsProtected(t: Topology, d: Disk, l: Lease, o: Lease)
    requires LocalOk(d, l) && LocalOk(d, o) && Apart(t, l, o)
    requires (l.at.Coordinated? || l.at.Truncated?) && l.changed
    ensures ReliesOnRecord(o) || SawDifference(o) ==> o.art != l.art
  {
    assert l.gate && Claim(l) == Exclusive;
    if ReliesOnRecord(o) || SawDifference(o) {
      assert o.gate || Claim(o) != Unlocked;
    }
  }

  lemma TakeKeepsInv(t: Topology, s: State, pid: Pid, step: Step)
    requires Inv(t, s) && Enabled(t, s, Take(pid, step))
    ensures Inv(t, Effect(t, s, Take(pid, step)))
  {
    var l := s.leases[pid];
    var d' := DiskAfter(t, s.disk, l, step);
    var l' := LeaseAfter(t, s.disk, l, step);
    StepKeepsOwn(t, s.disk, l, step);
    forall q | q in s.leases && q != pid
      ensures LocalOk(d', s.leases[q]) && OwnsFresh(d', s.leases[q])
      ensures !step.DropGate? ==> Apart(t, l', s.leases[q]) && Apart(t, s.leases[q], l')
    {
      StepUnnoticed(t, s.disk, l, step, s.leases[q]);
      StepStaysApart(t, s.disk, l, step, s.leases[q]);
    }
  }

  lemma JoinKeepsInv(t: Topology, s: State, pid: Pid, art: Artifact, exclusive: bool)
    requires Inv(t, s) && pid !in s.leases
    ensures Inv(t, State(s.disk, s.leases[pid := NewLease(art, exclusive)]))
  {
    assert LocalOk(s.disk, NewLease(art, exclusive));
  }

  /** Nobody's claim depends on which inode a path or a lease file name leads to. */
  lemma ReplacingKeepsInv(t: Topology, s: State, d: Disk)
    requires Inv(t, s) && DiskOk(d)
    requires d.slots == s.disk.slots && d.content == s.disk.content && d.records == s.disk.records
    ensures Inv(t, s.(disk := d))
  {
    forall p | p in s.leases ensures LocalOk(d, s.leases[p]) && OwnsFresh(d, s.leases[p]) {
      assert LocalOk(s.disk, s.leases[p]) && OwnsFresh(s.disk, s.leases[p]);
    }
  }

  lemma EveryStepKeepsInv(t: Topology, s: State, a: Action)
    requires Inv(t, s) && Enabled(t, s, a)
    ensures Inv(t, Effect(t, s, a))
  {
    match a {
      case Take(pid, step) => TakeKeepsInv(t, s, pid, step);
      case Create(pid, art, exclusive) => JoinKeepsInv(t, s, pid, art, exclusive);
      case Crash(_) =>
      case ReplaceParent(_, _) => ReplacingKeepsInv(t, s, Effect(t, s, a).disk);
      case ReplaceLease(_, _) => ReplacingKeepsInv(t, s, Effect(t, s, a).disk);
    }
  }

  lemma {:induction false} RunKeepsInv(t: Topology, s: State, actions: seq<Action>, s': State)
    requires Inv(t, s) && Execution(t, s, actions, s')
    ensures Inv(t, s')
    decreases |actions|
  {
    if actions != [] {
      EveryStepKeepsInv(t, s, actions[0]);
      RunKeepsInv(t, Effect(t, s, actions[0]), actions[1..], s');
    }
  }

  lemma ReachableInv(t: Topology, s: State)
    requires Reachable(t, s)
    ensures Inv(t, s)
  {
    var s0: State, actions: seq<Action> :| Initial(s0) && Execution(t, s0, actions, s);
    RunKeepsInv(t, s0, actions, s);
  }
}
