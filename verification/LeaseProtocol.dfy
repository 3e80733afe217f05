/** The cross-process artifact lease: a writer turnstile (the gate) and a reader/writer
    domain lock over flock, a recorded identity that forces a drain, and the directory
    exchange that a publisher performs under its lease.

    A state is the shared disk plus one record per lease object that some process holds
    open; there may be any number of them.  Each action is one system call (or one check)
    of one lease, a crash, or a change made by somebody who takes no lease at all. */
module LeaseProtocol {
  import opened Wrappers

  type Pid = nat
  type Inode = nat
  type Path = nat
  type Name = nat
  type Domain = nat
  type Tree = nat
  type Content = nat

  /** An artifact as a lease sees it: parent path, name, and the stable domain that was found for the
      parent when the lease was created.  That depends on the permission bits of the directories
      above, so leases of one path need not agree on it. */
  datatype Artifact = Artifact(parent: Path, name: Name, domain: Domain)

  /** A directory entry: the entry called `name` in the directory with inode `parent`. */
  datatype Slot = Slot(parent: Inode, name: Name)

  /** The directories that are locked for a domain.  Nothing is assumed about gates, which two domains
      may share, nor about the directories below a domain, which may be moved anywhere. */
  datatype Topology = Topology(domainInode: Domain -> Inode, gateInode: Domain -> Inode)

  /** The identity file of an artifact.  A crash between truncating and writing leaves
      `Empty`; text that does not parse is `Garbled`. */
  datatype Record = Empty | Garbled | Identity(parent: Inode, lease: Inode)

  datatype Disk = Disk(parentAt: map<Path, Inode>,
                       leaseAt: map<Slot, Inode>,
                       slots: map<Slot, Tree>,
                       content: map<Tree, Content>,
                       records: map<Artifact, Record>)

  datatype Mode = Unlocked | Shared | Exclusive

  /** How far a lease has come; each point names what was done last. */
  datatype Point =
    | Created | Opened | Gated | Admitted
    | Drained | DrainedValid
    | Compared
    | Joined | JoinedValid | Coordinated
    | Truncated | Recorded | Gap | Settled
    | DataLocked | DataChecked | Validated | Marked | Active
    | Closing

  /** One lease object.  `seen` remembers the tree the artifact's path resolved to at the last
      validation, `generation` the content of the anchored tree when the lease was marked
      active, and `observed` everything read through
      the anchor since. */
  datatype Lease = Lease(art: Artifact, exclusive: bool, at: Point,
                         gate: bool, domain: Mode, data: Mode,
                         parent: Inode, lease: Inode, changed: bool,
                         anchor: Option<Tree>, seen: Option<Tree>,
                         generation: Option<Content>, observed: seq<Content>,
                         staging: Option<Tree>, backup: Option<Tree>)

  datatype State = State(disk: Disk, leases: map<Pid, Lease>)

  /** One system call, or one check, of a lease. */
  datatype Step =
    | OpenParent
    | PrepareAnchor
    | TakeGate
    | ValidateParent
    | TakeDomain
    | Compare(created: Inode)
    | RevalidateLease
    | Truncate
    | WriteRecord
    | ShortWrite(left: Record)
    | DropForShared
    | RetakeShared
    | TakeData
    | Mark
    | OpenGate
    | Read
    | Stage(tree: Tree, written: Content)
    | WriteStaged(written: Content)
    | Exchange
    | Prune(written: Content)
    | Discard
    | BeginRelease
    | DropData
    | DropDomain
    | DropGate

  datatype Action =
    | Create(pid: Pid, art: Artifact, exclusive: bool)
    | Take(pid: Pid, step: Step)
    | Crash(pid: Pid)
    | ReplaceParent(path: Path, replacement: Option<Inode>)
    | ReplaceLease(slot: Slot, replacement: Option<Inode>)

  // ---- derived notions --------------------------------------------------------------

  function DomainOf(l: Lease): Domain { l.art.domain }

  function SlotOf(l: Lease): Slot { Slot(l.parent, l.art.name) }

  function RecordOf(d: Disk, a: Artifact): Record {
    if a in d.records then d.records[a] else Empty
  }

  /** The tree the artifact's path name leads to now. */
  function Resolve(d: Disk, a: Artifact): Option<Tree> {
    if a.parent in d.parentAt then Lookup(d.slots, Slot(d.parentAt[a.parent], a.name)) else None
  }

  predicate ParentIsCurrent(d: Disk, l: Lease) {
    Lookup(d.parentAt, l.art.parent) == Some(l.parent)
  }

  predicate LeaseFileIsCurrent(d: Disk, l: Lease) {
    Lookup(d.leaseAt, SlotOf(l)) == Some(l.lease)
  }

  /** A publisher acts only between its own activation and its release. */
  predicate Publishing(l: Lease) { l.at == Active && l.exclusive }

  // ---- locks ------------------------------------------------------------------------

  /** Does `o` hold a directory lock that keeps another descriptor from locking `inode`? */
  predicate Blocks(t: Topology, o: Lease, inode: Inode, exclusive: bool) {
    || (o.gate && t.gateInode(DomainOf(o)) == inode)
    || (o.domain != Unlocked && t.domainInode(DomainOf(o)) == inode
        && (exclusive || o.domain == Exclusive))
  }

  /** Do the locks of another lease `o` let `l` take this step? */
  predicate Permits(t: Topology, o: Lease, l: Lease, step: Step) {
    match step
    case TakeGate => !Blocks(t, o, t.gateInode(DomainOf(l)), true)
    case TakeDomain => !Blocks(t, o, t.domainInode(DomainOf(l)), l.exclusive || l.changed)
    case RetakeShared => !Blocks(t, o, t.domainInode(DomainOf(l)), false)
    case TakeData => o.data == Unlocked || o.lease != l.lease || (!l.exclusive && o.data == Shared)
    case _ => true
  }

  // ---- one lease --------------------------------------------------------------------

  /** What the lease itself and the disk must offer. */
  predicate CanStep(t: Topology, d: Disk, l: Lease, step: Step) {
    match step
    case OpenParent => l.at == Created && l.art.parent in d.parentAt
    case PrepareAnchor => l.at == Opened
    case TakeGate => l.at == Opened
    case ValidateParent => (l.at.Gated? || l.at.Drained? || l.at.Joined? || l.at.DataChecked?) && ParentIsCurrent(d, l)
    case TakeDomain => l.at == if l.exclusive then Admitted else Compared
    case Compare(_) =>
      && l.at == (if l.exclusive then DrainedValid else Admitted)
      && RecordOf(d, l.art) != Garbled
    case RevalidateLease =>
      && (l.at == DataLocked || l.at == if l.exclusive then Compared else JoinedValid)
      && LeaseFileIsCurrent(d, l) && ParentIsCurrent(d, l)
    case Truncate => l.at == Coordinated && l.changed
    case WriteRecord => l.at == Truncated
    case ShortWrite(_) => l.at == Truncated
    case DropForShared => l.at == Recorded && !l.exclusive
    case RetakeShared => l.at == Gap
    case TakeData =>
      || l.at == Settled
      || (l.at == Recorded && l.exclusive)
      || (l.at == Coordinated && !l.changed)
    case Mark => l.at == Validated
    case OpenGate => l.at == Marked
    case Read => l.at == Active && l.anchor.Some? && l.anchor.value in d.content
    case Stage(tree, _) => Publishing(l) && l.staging.None? && tree !in d.content
    case WriteStaged(_) => Publishing(l) && l.staging.Some?
    case Exchange => Publishing(l) && l.staging.Some? && l.backup.None?
    case Prune(_) => Publishing(l) && l.backup.Some?
    case Discard => Publishing(l) && l.backup.Some?
    case BeginRelease => l.at != Closing
    case DropData => l.at == Closing
    case DropDomain => l.at == Closing && l.data == Unlocked
    case DropGate => l.at == Closing && l.data == Unlocked && l.domain == Unlocked
  }

  function NewLease(a: Artifact, exclusive: bool): Lease {
    Lease(a, exclusive, Created, false, Unlocked, Unlocked, 0, 0, false,
          None, None, None, [], None, None)
  }

  /** Keep an anchor that still names the current tree; otherwise reopen it through the
      parent descriptor. */
  function Reanchor(d: Disk, l: Lease): Option<Tree> {
    var current := Lookup(d.slots, SlotOf(l));
    if l.anchor.Some? && current == l.anchor then l.anchor else current
  }

  function LeaseInode(d: Disk, l: Lease, created: Inode): Inode {
    if SlotOf(l) in d.leaseAt then d.leaseAt[SlotOf(l)] else created
  }

  /** Leaving: the lease is unmarked first and its locks are dropped afterwards, one by one. */
  function Close(l: Lease): Lease {
    l.(at := Closing, anchor := None, staging := None, backup := None)
  }

  predicate Publishes(step: Step) {
    step.Stage? || step.WriteStaged? || step.Exchange? || step.Prune? || step.Discard?
  }

  /** The steps before the record is rewritten. */
  predicate Early(step: Step) {
    || step.OpenParent? || step.PrepareAnchor? || step.TakeGate? || step.ValidateParent? || step.TakeDomain?
    || step.Compare? || step.RevalidateLease?
  }

  /** The steps of an active lease and of its release. */
  predicate Late(step: Step) {
    || step.OpenGate? || step.Read? || Publishes(step) || step.BeginRelease?
    || step.DropData? || step.DropDomain? || step.DropGate?
  }

  function AfterEarly(t: Topology, d: Disk, l: Lease, step: Step): Lease
    requires Early(step) && CanStep(t, d, l, step)
  {
    match step
    case OpenParent => l.(at := Opened, parent := d.parentAt[l.art.parent])
    case PrepareAnchor => l.(anchor := Reanchor(d, l))
    case TakeGate => l.(at := Gated, gate := true)
    case ValidateParent =>
      (match l.at
       case Gated => l.(at := Admitted)
       case Drained => l.(at := DrainedValid)
       case Joined => l.(at := JoinedValid)
       case _ => l.(at := Validated, seen := Resolve(d, l.art)))
    case TakeDomain =>
      if l.exclusive then l.(at := Drained, domain := Exclusive)
      else l.(at := Joined, domain := if l.changed then Exclusive else Shared)
    case Compare(created) =>
      var inode := LeaseInode(d, l, created);
      l.(at := Compared, lease := inode, changed := RecordOf(d, l.art) != Identity(l.parent, inode))
    case RevalidateLease => l.(at := if l.at == DataLocked then DataChecked else Coordinated)
  }

  function AfterMiddle(t: Topology, d: Disk, l: Lease, step: Step): Lease
    requires !Early(step) && !Late(step) && CanStep(t, d, l, step)
  {
    match step
    case Truncate => l.(at := Truncated)
    case WriteRecord => l.(at := Recorded)
    case ShortWrite(_) => Close(l)
    case DropForShared => l.(at := Gap, domain := Unlocked)
    case RetakeShared => l.(at := Settled, domain := Shared)
    case TakeData => l.(at := DataLocked, data := if l.exclusive then Exclusive else Shared)
    case Mark =>
      var anchor := Reanchor(d, l);
      l.(at := if l.exclusive then Active else Marked, anchor := anchor,
         generation := if anchor.Some? then Lookup(d.content, anchor.value) else None)
  }

  function AfterLate(t: Topology, d: Disk, l: Lease, step: Step): Lease
    requires Late(step) && CanStep(t, d, l, step)
  {
    match step
    case OpenGate => l.(at := Active, gate := false)
    case Read => l.(observed := l.observed + [d.content[l.anchor.value]])
    case Stage(tree, _) => l.(staging := Some(tree))
    case Exchange => l.(staging := None, backup := Lookup(d.slots, SlotOf(l)))
    case Discard => l.(backup := None)
    case BeginRelease => Close(l)
    case DropData => l.(data := Unlocked)
    case DropDomain => l.(domain := Unlocked)
    case DropGate => l.(gate := false)
    case WriteStaged(_) | Prune(_) => l
  }

  function LeaseAfter(t: Topology, d: Disk, l: Lease, step: Step): Lease
    requires CanStep(t, d, l, step)
  {
    if Early(step) then AfterEarly(t, d, l, step)
    else if Late(step) then AfterLate(t, d, l, step)
    else AfterMiddle(t, d, l, step)
  }

  function DiskAfter(t: Topology, d: Disk, l: Lease, step: Step): Disk
    requires CanStep(t, d, l, step)
  {
    match step
    case Compare(created) => d.(leaseAt := d.leaseAt[SlotOf(l) := LeaseInode(d, l, created)])
    case Truncate => d.(records := d.records[l.art := Empty])
    case WriteRecord => d.(records := d.records[l.art := Identity(l.parent, l.lease)])
    case ShortWrite(left) => d.(records := d.records[l.art := left])
    case Stage(tree, written) => d.(content := d.content[tree := written])
    case WriteStaged(written) => d.(content := d.content[l.staging.value := written])
    case Exchange => d.(slots := d.slots[SlotOf(l) := l.staging.value])
    case Prune(written) => d.(content := d.content[l.backup.value := written])
    case Discard => d.(content := d.content - {l.backup.value})
    case _ => d
  }

  // ---- the transition relation ------------------------------------------------------

  predicate Enabled(t: Topology, s: State, a: Action) {
    match a
    case Create(pid, _, _) => pid !in s.leases
    case Take(pid, step) =>
      && pid in s.leases
      && CanStep(t, s.disk, s.leases[pid], step)
      && forall q | q in s.leases && q != pid :: Permits(t, s.leases[q], s.leases[pid], step)
    case Crash(pid) => pid in s.leases
    case ReplaceParent(_, _) => true
    case ReplaceLease(_, _) => true
  }

  function Effect(t: Topology, s: State, a: Action): State
    requires Enabled(t, s, a)
  {
    var d := s.disk;
    match a
    case Create(pid, art, exclusive) => State(d, s.leases[pid := NewLease(art, exclusive)])
    case Take(pid, step) =>
      var l := s.leases[pid];
      State(DiskAfter(t, d, l, step),
            if step.DropGate? then s.leases - {pid} else s.leases[pid := LeaseAfter(t, d, l, step)])
    case Crash(pid) => State(d, s.leases - {pid})
    case ReplaceParent(path, r) =>
      s.(disk := d.(parentAt := if r.Some? then d.parentAt[path := r.value] else d.parentAt - {path}))
    case ReplaceLease(slot, r) =>
      s.(disk := d.(leaseAt := if r.Some? then d.leaseAt[slot := r.value] else d.leaseAt - {slot}))
  }

  /** A run: the states it passes through are those of its prefixes. */
  predicate Execution(t: Topology, s: State, actions: seq<Action>, s': State)
    decreases |actions|
  {
    if actions == [] then s' == s
    else Enabled(t, s, actions[0]) && Execution(t, Effect(t, s, actions[0]), actions[1..], s')
  }
}
