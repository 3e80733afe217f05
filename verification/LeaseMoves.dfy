/** What moving a directory between domains can do: runs in which a reader reads two generations
    or a data lock waits, and the exact condition under which there are none. */
module LeaseMoves {
  import opened Wrappers
  import opened LeaseProtocol
  import opened LeaseSafety
  import opened LeaseTheorems
  import opened LeaseSnapshots

  // ---- building runs ----------------------------------------------------------------

  lemma {:induction false} RunOneMore(t: Topology, moves: Moves, s: State, actions: seq<Action>, m: State, a: Action)
    requires RunWithin(t, moves, s, actions, m) && Enabled(t, m, a) && Allows(moves, m, a)
    ensures RunWithin(t, moves, s, actions + [a], Effect(t, m, a))
    decreases |actions|
  {
    if actions == [] {
      assert actions + [a] == [a];
    } else {
      RunOneMore(t, moves, Effect(t, s, actions[0]), actions[1..], m, a);
      assert (actions + [a])[1..] == actions[1..] + [a];
    }
  }

  lemma Next(t: Topology, moves: Moves, s: State, a: Action)
    requires ReachableWithin(t, moves, s) && Enabled(t, s, a) && Allows(moves, s, a)
    ensures ReachableWithin(t, moves, Effect(t, s, a))
  {
    var s0: State, actions: seq<Action> :|
      Initial(s0) && DiskWithin(moves, s0.disk) && RunWithin(t, moves, s0, actions, s);
    RunOneMore(t, moves, s0, actions, s, a);
  }

  /** Beside the leases `rest` the lease `l` of `pid` can be reached, with the disk `d`. */
  ghost predicate Stands(t: Topology, moves: Moves, rest: map<Pid, Lease>, pid: Pid, d: Disk, l: Lease) {
    pid !in rest && ReachableWithin(t, moves, State(d, rest[pid := l]))
  }

  /** A step of `pid` that neither waits nor creates a file. */
  lemma Advance(t: Topology, moves: Moves, rest: map<Pid, Lease>, pid: Pid, d: Disk, l: Lease, step: Step)
    requires Stands(t, moves, rest, pid, d, l) && CanStep(t, d, l, step) && !step.DropGate?
    requires forall q | q in rest :: Permits(t, rest[q], l, step)
    requires step.Compare? ==> SlotOf(l) in d.leaseAt
    ensures Stands(t, moves, rest, pid, DiskAfter(t, d, l, step), LeaseAfter(t, d, l, step))
  {
    var s := State(d, rest[pid := l]);
    Next(t, moves, s, Take(pid, step));
    assert Effect(t, s, Take(pid, step)).leases == rest[pid := LeaseAfter(t, d, l, step)];
  }

  function ArtifactAt(x: Place): Artifact { Artifact(x.p, x.n, x.d) }

  predicate Located(d: Disk, x: Place) {
    Lookup(d.parentAt, x.p) == Some(x.i) && Lookup(d.leaseAt, Slot(x.i, x.n)) == Some(x.f)
  }

  /** The place is as its record says. */
  predicate InPlace(d: Disk, x: Place) { Located(d, x) && RecordOf(d, ArtifactAt(x)) == Identity(x.i, x.f) }

  /** The lease at the stations of its way to the data lock, when the record is as expected. */
  function At(x: Place, exclusive: bool, at: Point): Lease {
    var base := NewLease(ArtifactAt(x), exclusive).(at := at);
    match at
    case Created => base
    case Opened => base.(parent := x.i)
    case Gated | Admitted => base.(parent := x.i, gate := true)
    case Drained | DrainedValid => base.(parent := x.i, gate := true, domain := Exclusive)
    case Compared => base.(parent := x.i, lease := x.f, gate := true, domain := if exclusive then Exclusive else Unlocked)
    case Joined | JoinedValid | Coordinated =>
      base.(parent := x.i, lease := x.f, gate := true, domain := if exclusive then Exclusive else Shared)
    case _ =>
      var mode := if exclusive then Exclusive else Shared;
      base.(parent := x.i, lease := x.f, gate := true, domain := mode, data := mode)
  }

  /** The locks of the leases leave gate and domain of `e` alone. */
  predicate Vacant(t: Topology, rest: map<Pid, Lease>, e: Domain, exclusive: bool) {
    forall q | q in rest ::
      !Blocks(t, rest[q], t.gateInode(e), true) && !Blocks(t, rest[q], t.domainInode(e), exclusive)
  }

  /** The way from station to station. */
  predicate Onward(exclusive: bool, at: Point, step: Step, next: Point) {
    match step
    case OpenParent => at.Created? && next.Opened?
    case TakeGate => at.Opened? && next.Gated?
    case ValidateParent =>
      || (at.Gated? && next.Admitted?)
      || (exclusive && at.Drained? && next.DrainedValid?)
      || (!exclusive && at.Joined? && next.JoinedValid?)
    case TakeDomain => if exclusive then at.Admitted? && next.Drained? else at.Compared? && next.Joined?
    case RevalidateLease =>
      || (at == (if exclusive then Compared else JoinedValid) && next.Coordinated?)
      || (at.DataLocked? && next.DataChecked?)
    case TakeData => at.Coordinated? && next.DataLocked?
    case _ => false
  }

  lemma ValidateFollows(t: Topology, d: Disk, x: Place, exclusive: bool, at: Point, step: Step, next: Point)
    requires Located(d, x) && Onward(exclusive, at, step, next) && step.ValidateParent?
    ensures CanStep(t, d, At(x, exclusive, at), step)
    ensures DiskAfter(t, d, At(x, exclusive, at), step) == d
    ensures LeaseAfter(t, d, At(x, exclusive, at), step) == At(x, exclusive, next)
  {
  }

  lemma RevalidateFollows(t: Topology, d: Disk, x: Place, exclusive: bool, at: Point, step: Step, next: Point)
    requires Located(d, x) && Onward(exclusive, at, step, next) && step.RevalidateLease?
    ensures CanStep(t, d, At(x, exclusive, at), step)
    ensures DiskAfter(t, d, At(x, exclusive, at), step) == d
    ensures LeaseAfter(t, d, At(x, exclusive, at), step) == At(x, exclusive, next)
  {
  }

  lemma LockFollows(t: Topology, d: Disk, x: Place, exclusive: bool, at: Point, step: Step, next: Point)
    requires Located(d, x) && Onward(exclusive, at, step, next) && (step.TakeDomain? || step.TakeData?)
    ensures CanStep(t, d, At(x, exclusive, at), step)
    ensures DiskAfter(t, d, At(x, exclusive, at), step) == d
    ensures LeaseAfter(t, d, At(x, exclusive, at), step) == At(x, exclusive, next)
  {
  }

  lemma StationFollows(t: Topology, d: Disk, x: Place, exclusive: bool, at: Point, step: Step, next: Point)
    requires Located(d, x) && Onward(exclusive, at, step, next)
    ensures CanStep(t, d, At(x, exclusive, at), step)
    ensures DiskAfter(t, d, At(x, exclusive, at), step) == d
    ensures LeaseAfter(t, d, At(x, exclusive, at), step) == At(x, exclusive, next)
  {
    match step {
      case ValidateParent => ValidateFollows(t, d, x, exclusive, at, step, next);
      case RevalidateLease => RevalidateFollows(t, d, x, exclusive, at, step, next);
      case TakeDomain | TakeData => LockFollows(t, d, x, exclusive, at, step, next);
      case _ =>
    }
  }

  /** No other lease holds a lock that `x` needs. */
  predicate Free(t: Topology, rest: map<Pid, Lease>, x: Place, exclusive: bool) {
    && Vacant(t, rest, x.d, exclusive)
    && forall q | q in rest :: rest[q].data == Unlocked || rest[q].lease != x.f
  }

  lemma RestPermits(t: Topology, rest: map<Pid, Lease>, x: Place, exclusive: bool, at: Point, step: Step, next: Point)
    requires Onward(exclusive, at, step, next)
    requires if step.TakeData? then Free(t, rest, x, exclusive) else Vacant(t, rest, x.d, exclusive)
    ensures forall q | q in rest :: Permits(t, rest[q], At(x, exclusive, at), step)
  {
    var l := At(x, exclusive, at);
    assert l.art.parent == x.p && l.exclusive == exclusive && !l.changed;
  }

  lemma Passes(t: Topology, moves: Moves, rest: map<Pid, Lease>, pid: Pid, d: Disk, x: Place, exclusive: bool,
               at: Point, step: Step, next: Point)
    requires Located(d, x) && Onward(exclusive, at, step, next) && Stands(t, moves, rest, pid, d, At(x, exclusive, at))
    requires if step.TakeData? then Free(t, rest, x, exclusive) else Vacant(t, rest, x.d, exclusive)
    ensures Stands(t, moves, rest, pid, d, At(x, exclusive, next))
  {
    StationFollows(t, d, x, exclusive, at, step, next);
    RestPermits(t, rest, x, exclusive, at, step, next);
    Advance(t, moves, rest, pid, d, At(x, exclusive, at), step);
  }

  lemma Enters(t: Topology, moves: Moves, rest: map<Pid, Lease>, pid: Pid, d: Disk, x: Place, exclusive: bool)
    requires moves.domain(x.p, x.d) && ReachableWithin(t, moves, State(d, rest)) && pid !in rest && Located(d, x)
    requires Vacant(t, rest, x.d, exclusive)
    ensures Stands(t, moves, rest, pid, d, At(x, exclusive, Admitted))
  {
    Next(t, moves, State(d, rest), Create(pid, ArtifactAt(x), exclusive));
    Passes(t, moves, rest, pid, d, x, exclusive, Created, OpenParent, Opened);
    Passes(t, moves, rest, pid, d, x, exclusive, Opened, TakeGate, Gated);
    Passes(t, moves, rest, pid, d, x, exclusive, Gated, ValidateParent, Admitted);
  }

  /** Comparing with an existing lease file that the record names changes nothing. */
  lemma Compares(t: Topology, moves: Moves, rest: map<Pid, Lease>, pid: Pid, d: Disk, x: Place, exclusive: bool)
    requires Stands(t, moves, rest, pid, d, At(x, exclusive, if exclusive then DrainedValid else Admitted)) && InPlace(d, x)
    ensures Stands(t, moves, rest, pid, d, At(x, exclusive, Compared))
  {
    var l := At(x, exclusive, if exclusive then DrainedValid else Admitted);
    Advance(t, moves, rest, pid, d, l, Compare(x.f));
    assert DiskAfter(t, d, l, Compare(x.f)).leaseAt == d.leaseAt;
  }

  /** A lease comes up to the data lock if gate and domain are left alone. */
  lemma Coordinates(t: Topology, moves: Moves, rest: map<Pid, Lease>, pid: Pid, d: Disk, x: Place, exclusive: bool)
    requires moves.domain(x.p, x.d) && ReachableWithin(t, moves, State(d, rest)) && pid !in rest && InPlace(d, x)
    requires Vacant(t, rest, x.d, exclusive)
    ensures Stands(t, moves, rest, pid, d, At(x, exclusive, Coordinated))
  {
    Enters(t, moves, rest, pid, d, x, exclusive);
    if exclusive {
      Passes(t, moves, rest, pid, d, x, true, Admitted, TakeDomain, Drained);
      Passes(t, moves, rest, pid, d, x, true, Drained, ValidateParent, DrainedValid);
      Compares(t, moves, rest, pid, d, x, true);
      Passes(t, moves, rest, pid, d, x, true, Compared, RevalidateLease, Coordinated);
    } else {
      Compares(t, moves, rest, pid, d, x, false);
      Passes(t, moves, rest, pid, d, x, false, Compared, TakeDomain, Joined);
      Passes(t, moves, rest, pid, d, x, false, Joined, ValidateParent, JoinedValid);
      Passes(t, moves, rest, pid, d, x, false, JoinedValid, RevalidateLease, Coordinated);
    }
  }

  lemma SightStep(t: Topology, d: Disk, x: Place, exclusive: bool)
    requires InPlace(d, x)
    ensures var l := At(x, exclusive, DataChecked);
            && CanStep(t, d, l, ValidateParent) && DiskAfter(t, d, l, ValidateParent) == d
            && LeaseAfter(t, d, l, ValidateParent)
               == At(x, exclusive, Validated).(seen := Lookup(d.slots, Slot(x.i, x.n)))
  {
  }

  /** ... and past it if the lease file is free, too. */
  lemma Validates(t: Topology, moves: Moves, rest: map<Pid, Lease>, pid: Pid, d: Disk, x: Place, exclusive: bool, tree: Tree)
    requires moves.domain(x.p, x.d) && ReachableWithin(t, moves, State(d, rest)) && pid !in rest && InPlace(d, x)
    requires Free(t, rest, x, exclusive) && Lookup(d.slots, Slot(x.i, x.n)) == Some(tree)
    ensures Stands(t, moves, rest, pid, d, At(x, exclusive, Validated).(seen := Some(tree)))
  {
    Coordinates(t, moves, rest, pid, d, x, exclusive);
    Passes(t, moves, rest, pid, d, x, exclusive, Coordinated, TakeData, DataLocked);
    Passes(t, moves, rest, pid, d, x, exclusive, DataLocked, RevalidateLease, DataChecked);
    SightStep(t, d, x, exclusive);
    Advance(t, moves, rest, pid, d, At(x, exclusive, DataChecked), ValidateParent);
  }

  // ---- a reader, a move, and a writer -----------------------------------------------

  /** An active reader that has read `observed`, the first of it as the generation. */
  function Reader(x: Place, tree: Tree, observed: seq<Content>): Lease
    requires observed != []
  {
    At(x, false, Active).(gate := false, seen := Some(tree), anchor := Some(tree),
                          generation := Some(observed[0]), observed := observed)
  }

  /** The lease once it is marked. */
  function Marking(x: Place, exclusive: bool, tree: Tree, generation: Content): Lease {
    At(x, exclusive, if exclusive then Active else Marked)
    .(seen := Some(tree), anchor := Some(tree), generation := Some(generation))
  }

  lemma MarkStep(t: Topology, d: Disk, x: Place, exclusive: bool, tree: Tree)
    requires Lookup(d.slots, Slot(x.i, x.n)) == Some(tree) && tree in d.content
    ensures var seen := At(x, exclusive, Validated).(seen := Some(tree));
            && CanStep(t, d, seen, Mark) && DiskAfter(t, d, seen, Mark) == d
            && LeaseAfter(t, d, seen, Mark) == Marking(x, exclusive, tree, d.content[tree])
  {
  }

  /** A lease validates and is marked. */
  lemma Marks(t: Topology, moves: Moves, rest: map<Pid, Lease>, pid: Pid, d: Disk, x: Place, exclusive: bool, tree: Tree)
    requires moves.domain(x.p, x.d) && ReachableWithin(t, moves, State(d, rest)) && pid !in rest && InPlace(d, x)
    requires Free(t, rest, x, exclusive) && Lookup(d.slots, Slot(x.i, x.n)) == Some(tree) && tree in d.content
    ensures Stands(t, moves, rest, pid, d, Marking(x, exclusive, tree, d.content[tree]))
  {
    Validates(t, moves, rest, pid, d, x, exclusive, tree);
    MarkStep(t, d, x, exclusive, tree);
    Advance(t, moves, rest, pid, d, At(x, exclusive, Validated).(seen := Some(tree)), Mark);
  }

  lemma ReadStep(t: Topology, d: Disk, l: Lease)
    requires l.at.Active? && l.anchor.Some? && l.anchor.value in d.content
    ensures CanStep(t, d, l, Read) && DiskAfter(t, d, l, Read) == d
    ensures LeaseAfter(t, d, l, Read) == l.(observed := l.observed + [d.content[l.anchor.value]])
  {
  }

  lemma OpenStep(t: Topology, d: Disk, x: Place, tree: Tree, generation: Content)
    ensures var l := Marking(x, false, tree, generation);
            && CanStep(t, d, l, OpenGate) && DiskAfter(t, d, l, OpenGate) == d
            && LeaseAfter(t, d, l, OpenGate) == Reader(x, tree, [generation]).(observed := [])
  {
  }

  lemma ReaderReads(t: Topology, moves: Moves, rest: map<Pid, Lease>, pid: Pid, d: Disk, x: Place, tree: Tree)
    requires moves.domain(x.p, x.d) && ReachableWithin(t, moves, State(d, rest)) && pid !in rest && InPlace(d, x)
    requires Free(t, rest, x, false) && Lookup(d.slots, Slot(x.i, x.n)) == Some(tree) && tree in d.content
    ensures Stands(t, moves, rest, pid, d, Reader(x, tree, [d.content[tree]]))
  {
    Marks(t, moves, rest, pid, d, x, false, tree);
    OpenStep(t, d, x, tree, d.content[tree]);
    Advance(t, moves, rest, pid, d, Marking(x, false, tree, d.content[tree]), OpenGate);
    var unread := Reader(x, tree, [d.content[tree]]).(observed := []);
    ReadStep(t, d, unread);
    assert unread.(observed := unread.observed + [d.content[tree]]) == Reader(x, tree, [d.content[tree]]);
    Advance(t, moves, rest, pid, d, unread, Read);
  }

  function Staged(d: Disk, staged: Tree): Disk { d.(content := d.content[staged := 0]) }

  function Exchanged(d: Disk, x: Place, staged: Tree): Disk {
    Staged(d, staged).(slots := d.slots[Slot(x.i, x.n) := staged])
  }

  function Pruned(d: Disk, x: Place, tree: Tree, staged: Tree, pruned: Content): Disk {
    Exchanged(d, x, staged).(content := d.content[staged := 0][tree := pruned])
  }

  lemma WriterSteps(t: Topology, d: Disk, x: Place, tree: Tree, staged: Tree)
    requires Lookup(d.slots, Slot(x.i, x.n)) == Some(tree) && tree in d.content && staged !in d.content
    ensures var w := Marking(x, true, tree, d.content[tree]);
            var w' := w.(staging := Some(staged));
            && CanStep(t, d, w, Stage(staged, 0))
            && LeaseAfter(t, d, w, Stage(staged, 0)) == w' && DiskAfter(t, d, w, Stage(staged, 0)) == Staged(d, staged)
            && CanStep(t, Staged(d, staged), w', Exchange)
            && LeaseAfter(t, Staged(d, staged), w', Exchange) == w.(backup := Some(tree))
            && DiskAfter(t, Staged(d, staged), w', Exchange) == Exchanged(d, x, staged)
  {
  }

  lemma PruneStep(t: Topology, d: Disk, x: Place, tree: Tree, staged: Tree, pruned: Content)
    requires tree in d.content
    ensures var w := Marking(x, true, tree, d.content[tree]).(backup := Some(tree));
            && CanStep(t, Exchanged(d, x, staged), w, Prune(pruned))
            && LeaseAfter(t, Exchanged(d, x, staged), w, Prune(pruned)) == w
            && DiskAfter(t, Exchanged(d, x, staged), w, Prune(pruned)) == Pruned(d, x, tree, staged, pruned)
  {
  }

  /** A writer replaces the tree and prunes the old one. */
  lemma WriterPublishes(t: Topology, moves: Moves, rest: map<Pid, Lease>, pid: Pid, d: Disk, x: Place,
                        tree: Tree, staged: Tree, pruned: Content)
    requires moves.domain(x.p, x.d) && ReachableWithin(t, moves, State(d, rest)) && pid !in rest && InPlace(d, x)
    requires Free(t, rest, x, true) && Lookup(d.slots, Slot(x.i, x.n)) == Some(tree) && tree in d.content
    requires staged !in d.content
    ensures Stands(t, moves, rest, pid, Pruned(d, x, tree, staged, pruned), Marking(x, true, tree, d.content[tree]).(backup := Some(tree)))
  {
    Marks(t, moves, rest, pid, d, x, true, tree);
    var w := Marking(x, true, tree, d.content[tree]);
    WriterSteps(t, d, x, tree, staged);
    PruneStep(t, d, x, tree, staged, pruned);
    Advance(t, moves, rest, pid, d, w, Stage(staged, 0));
    Advance(t, moves, rest, pid, Staged(d, staged), w.(staging := Some(staged)), Exchange);
    Advance(t, moves, rest, pid, Exchanged(d, x, staged), w.(backup := Some(tree)), Prune(pruned));
  }

  /** The artifact is in `x`; the record of the other artifact already names `y`. */
  function Before(x: Place, y: Place): Disk {
    Disk(map[x.p := x.i], map[Slot(x.i, x.n) := x.f], map[Slot(x.i, x.n) := 0], map[0 := 1],
         map[ArtifactAt(x) := Identity(x.i, x.f), ArtifactAt(y) := Identity(y.i, y.f)])
  }

  /** Directory and lease file have been moved to `y`. */
  function Moved(x: Place, y: Place): Disk {
    Before(x, y).(parentAt := map[y.p := y.i], leaseAt := map[Slot(y.i, y.n) := y.f])
  }

  lemma MovesAway(t: Topology, moves: Moves, leases: map<Pid, Lease>, x: Place, y: Place)
    requires ReachableWithin(t, moves, State(Before(x, y), leases)) && May(moves, y)
    ensures ReachableWithin(t, moves, State(Moved(x, y), leases))
  {
    var s := State(Before(x, y), leases);
    Next(t, moves, s, ReplaceParent(x.p, None));
    s := Effect(t, s, ReplaceParent(x.p, None));
    Next(t, moves, s, ReplaceLease(Slot(x.i, x.n), None));
    s := Effect(t, s, ReplaceLease(Slot(x.i, x.n), None));
    assert s.disk.parentAt == map[] && s.disk.leaseAt == map[];
    Next(t, moves, s, ReplaceParent(y.p, Some(y.i)));
    s := Effect(t, s, ReplaceParent(y.p, Some(y.i)));
    Next(t, moves, s, ReplaceLease(Slot(y.i, y.n), Some(y.f)));
    s := Effect(t, s, ReplaceLease(Slot(y.i, y.n), Some(y.f)));
    assert s.disk == Moved(x, y);
  }

  lemma Starts(t: Topology, moves: Moves, x: Place, y: Place)
    requires May(moves, x)
    ensures ReachableWithin(t, moves, State(Before(x, y), map[]))
  {
    var s0 := State(Before(x, y), map[]);
    assert RunWithin(t, moves, s0, [], s0);
  }

  /** A reader in the domain of `x` does not keep a writer out of the domain of `y`. */
  predicate Clear(t: Topology, x: Place, y: Place) {
    && t.domainInode(x.d) != t.domainInode(y.d)
    && t.domainInode(x.d) != t.gateInode(y.d)
  }

  /** The reader of `x` is active and has read its tree; then everything is moved to `y`. */
  lemma ReaderIsMoved(t: Topology, moves: Moves, x: Place, y: Place)
    requires May(moves, x) && May(moves, y) && x.d != y.d
    ensures ReachableWithin(t, moves, State(Moved(x, y), map[0 := Reader(x, 0, [1])]))
  {
    Starts(t, moves, x, y);
    ReaderReads(t, moves, map[], 0, Before(x, y), x, 0);
    MovesAway(t, moves, map[][0 := Reader(x, 0, [1])], x, y);
    assert map[][0 := Reader(x, 0, [1])] == map[0 := Reader(x, 0, [1])];
  }

  lemma ReaderLeavesRoom(t: Topology, x: Place, y: Place)
    requires Clear(t, x, y)
    ensures Vacant(t, map[0 := Reader(x, 0, [1])], y.d, true)
    ensures x.f != y.f ==> Free(t, map[0 := Reader(x, 0, [1])], y, true)
  {
    var r := Reader(x, 0, [1]);
    assert !r.gate && DomainOf(r) == x.d && r.lease == x.f;
  }

  /** The reader reads once more after the writer has pruned the tree. */
  lemma ReadsAgain(t: Topology, moves: Moves, x: Place, d: Disk, w: Lease) returns (s: State)
    requires ReachableWithin(t, moves, State(d, map[0 := Reader(x, 0, [1])][1 := w]))
    requires 0 in d.content && d.content[0] == 2
    ensures ReachableWithin(t, moves, s) && s.leases == map[1 := w][0 := Reader(x, 0, [1, 2])]
  {
    var r := Reader(x, 0, [1]);
    assert map[0 := r][1 := w] == map[1 := w][0 := r];
    ReadStep(t, d, r);
    Advance(t, moves, map[1 := w], 0, d, r, Read);
    assert r.observed + [2] == [1, 2];
    s := State(d, map[1 := w][0 := Reader(x, 0, [1, 2])]);
  }

  lemma MovedIsInPlace(x: Place, y: Place)
    requires x.d != y.d
    ensures InPlace(Moved(x, y), y) && Moved(x, y).slots == map[Slot(x.i, x.n) := 0] && Moved(x, y).content == map[0 := 1]
  {
  }

  lemma WriterFollows(t: Topology, moves: Moves, x: Place, y: Place) returns (d: Disk)
    requires May(moves, x) && May(moves, y) && Clear(t, x, y)
    requires x.d != y.d && x.i == y.i && x.n == y.n && x.f != y.f
    ensures var w := Marking(y, true, 0, 1).(backup := Some(0));
            ReachableWithin(t, moves, State(d, map[0 := Reader(x, 0, [1])][1 := w]))
    ensures 0 in d.content && d.content[0] == 2
  {
    ReaderIsMoved(t, moves, x, y);
    ReaderLeavesRoom(t, x, y);
    MovedIsInPlace(x, y);
    WriterPublishes(t, moves, map[0 := Reader(x, 0, [1])], 1, Moved(x, y), y, 0, 1, 2);
    d := Pruned(Moved(x, y), y, 0, 1, 2);
  }

  /** A directory that moves to another domain, where its lease file is replaced: a reader that is
      still active reads the old tree while a writer prunes it. */
  lemma TwoGenerations(t: Topology, moves: Moves, x: Place, y: Place) returns (s: State)
    requires May(moves, x) && May(moves, y) && Clear(t, x, y)
    requires x.d != y.d && x.i == y.i && x.n == y.n && x.f != y.f
    ensures ReachableWithin(t, moves, s) && s.leases.Keys == {0, 1}
    ensures Reading(s.leases[0]) && s.leases[0].art == ArtifactAt(x) && s.leases[0].observed == [1, 2]
    ensures Publishing(s.leases[1]) && s.leases[1].art == ArtifactAt(y)
  {
    var d := WriterFollows(t, moves, x, y);
    s := ReadsAgain(t, moves, x, d, Marking(y, true, 0, 1).(backup := Some(0)));
  }

  /** A lease file that is found in two domains: a writer of the second waits for the data lock. */
  lemma DataLockWaits(t: Topology, moves: Moves, x: Place, y: Place) returns (s: State)
    requires May(moves, x) && May(moves, y) && Clear(t, x, y) && x.d != y.d && x.f == y.f
    ensures ReachableWithin(t, moves, s) && 1 in s.leases
    ensures CanStep(t, s.disk, s.leases[1], TakeData) && !Enabled(t, s, Take(1, TakeData))
  {
    ReaderIsMoved(t, moves, x, y);
    ReaderLeavesRoom(t, x, y);
    MovedIsInPlace(x, y);
    var r := Reader(x, 0, [1]);
    Coordinates(t, moves, map[0 := r], 1, Moved(x, y), y, true);
    s := State(Moved(x, y), map[0 := r][1 := At(y, true, Coordinated)]);
    assert !Permits(t, s.leases[0], s.leases[1], TakeData);
  }

  /** A lease opens its parent whatever others hold. */
  lemma Opens(t: Topology, moves: Moves, rest: map<Pid, Lease>, pid: Pid, d: Disk, x: Place)
    requires moves.domain(x.p, x.d) && ReachableWithin(t, moves, State(d, rest)) && pid !in rest && Located(d, x)
    ensures Stands(t, moves, rest, pid, d, At(x, false, Opened))
  {
    Next(t, moves, State(d, rest), Create(pid, ArtifactAt(x), false));
    StationFollows(t, d, x, false, Created, OpenParent, Opened);
    Advance(t, moves, rest, pid, d, At(x, false, Created), OpenParent);
  }

  /** A reader of `x`, a writer that comes up to the data lock, and a reader before the turnstile. */
  function ThreeLeases(x: Place, y: Place): map<Pid, Lease> {
    map[0 := Reader(x, 0, [1])][1 := At(y, true, Coordinated)][2 := At(y, false, Opened)]
  }

  lemma ThreeLeasesMeet(t: Topology, moves: Moves, x: Place, y: Place)
    requires May(moves, x) && May(moves, y) && Clear(t, x, y) && x.d != y.d
    ensures ReachableWithin(t, moves, State(Moved(x, y), ThreeLeases(x, y)))
  {
    ReaderIsMoved(t, moves, x, y);
    ReaderLeavesRoom(t, x, y);
    MovedIsInPlace(x, y);
    var r := Reader(x, 0, [1]);
    Coordinates(t, moves, map[0 := r], 1, Moved(x, y), y, true);
    Opens(t, moves, map[0 := r][1 := At(y, true, Coordinated)], 2, Moved(x, y), y);
  }

  lemma ThreeLeasesWait(t: Topology, x: Place, y: Place)
    requires x.f == y.f
    ensures var d, ls := Moved(x, y), ThreeLeases(x, y);
            && CanStep(t, d, ls[1], TakeData) && !Permits(t, ls[0], ls[1], TakeData)
            && CanStep(t, d, ls[2], TakeGate) && !Permits(t, ls[1], ls[2], TakeGate)
  {
  }

  /** ... and where one process holds the first lease and wants a second one in the other domain, the
      wait closes a circle: the second stands before the turnstile that the writer keeps. */
  lemma DataLockCloses(t: Topology, moves: Moves, x: Place, y: Place) returns (s: State)
    requires May(moves, x) && May(moves, y) && Clear(t, x, y) && x.d != y.d && x.f == y.f
    ensures ReachableWithin(t, moves, s) && s.leases.Keys == {0, 1, 2}
    ensures Reading(s.leases[0]) && s.leases[0].art == ArtifactAt(x) && s.leases[2].art == ArtifactAt(y)
    ensures CanStep(t, s.disk, s.leases[1], TakeData) && !Permits(t, s.leases[0], s.leases[1], TakeData)
    ensures CanStep(t, s.disk, s.leases[2], TakeGate) && !Permits(t, s.leases[1], s.leases[2], TakeGate)
  {
    ThreeLeasesMeet(t, moves, x, y);
    ThreeLeasesWait(t, x, y);
    s := State(Moved(x, y), ThreeLeases(x, y));
  }

  /** A reader that has validated its tree and not yet been marked. */
  function Validating(x: Place): Lease { At(x, false, Validated).(seen := Some(0)) }

  /** Gates and domains of the two places are four different directories. */
  predicate AllClear(t: Topology, x: Place, y: Place) {
    var d, e := x.d, y.d;
    Clear(t, x, y) && t.gateInode(d) != t.gateInode(e) && t.gateInode(d) != t.domainInode(e)
  }

  lemma ValidatingLeavesRoom(t: Topology, x: Place, y: Place)
    requires AllClear(t, x, y) && x.f != y.f
    ensures Free(t, map[0 := Validating(x)], y, true)
  {
    var r := Validating(x);
    assert r.gate && DomainOf(r) == x.d && r.lease == x.f;
  }

  lemma WriterOvertakes(t: Topology, moves: Moves, x: Place, y: Place) returns (d: Disk, w: Lease)
    requires May(moves, x) && May(moves, y) && AllClear(t, x, y)
    requires x.d != y.d && x.i == y.i && x.n == y.n && x.f != y.f
    ensures ReachableWithin(t, moves, State(d, map[0 := Validating(x)][1 := w]))
    ensures Lookup(d.slots, Slot(x.i, x.n)) == Some(1)
  {
    Starts(t, moves, x, y);
    Validates(t, moves, map[], 0, Before(x, y), x, false, 0);
    assert map[][0 := Validating(x)] == map[0 := Validating(x)];
    MovesAway(t, moves, map[0 := Validating(x)], x, y);
    ValidatingLeavesRoom(t, x, y);
    MovedIsInPlace(x, y);
    WriterPublishes(t, moves, map[0 := Validating(x)], 1, Moved(x, y), y, 0, 1, 2);
    d, w := Pruned(Moved(x, y), y, 0, 1, 2), Marking(y, true, 0, 1).(backup := Some(0));
  }

  /** The same move between validation and activation: the reader anchors another tree than the
      one it has validated. */
  lemma StaleAnchor(t: Topology, moves: Moves, x: Place, y: Place) returns (s: State)
    requires May(moves, x) && May(moves, y) && AllClear(t, x, y)
    requires x.d != y.d && x.i == y.i && x.n == y.n && x.f != y.f
    ensures ReachableWithin(t, moves, s) && 0 in s.leases && Reading(s.leases[0])
    ensures s.leases[0].seen == Some(0) && s.leases[0].anchor == Some(1)
  {
    var d, w := WriterOvertakes(t, moves, x, y);
    var r := Validating(x);
    assert map[0 := r][1 := w] == map[1 := w][0 := r];
    Advance(t, moves, map[1 := w], 0, d, r, Mark);
    s := State(d, map[1 := w][0 := LeaseAfter(t, d, r, Mark)]);
  }

  // ---- exactly when -----------------------------------------------------------------

  /** Different domains are different directories, and no two are the gates of each other, nor one its
      own. */
  ghost predicate Grounded(t: Topology) {
    && DistinctDomains(t)
    && forall d: Domain, e: Domain :: !(t.gateInode(d) == t.domainInode(e) && t.gateInode(e) == t.domainInode(d))
  }

  /** All that an active reader has read is one content. */
  predicate ReadsAgree(s: State) {
    forall r | r in s.leases && Reading(s.leases[r]) ::
      forall i, j | 0 <= i < |s.leases[r].observed| && 0 <= j < |s.leases[r].observed| ::
        s.leases[r].observed[i] == s.leases[r].observed[j]
  }

  predicate DataLocksAreFree(t: Topology, s: State) {
    forall p | p in s.leases && CanStep(t, s.disk, s.leases[p], TakeData) :: Enabled(t, s, Take(p, TakeData))
  }

  lemma SeparatedReadsAgree(t: Topology, moves: Moves, s: State)
    requires ReachableWithin(t, moves, s) && Separated(t, moves)
    ensures ReadsAgree(s)
  {
    ReachableSnapshots(t, moves, s);
    forall r | r in s.leases && Reading(s.leases[r])
      ensures forall i, j | 0 <= i < |s.leases[r].observed| && 0 <= j < |s.leases[r].observed| ::
                s.leases[r].observed[i] == s.leases[r].observed[j]
    {
      assert Steady(s.disk, s.leases[r]);
    }
  }

  lemma SharedDirectoryFails(t: Topology, moves: Moves, x: Place, y: Place) returns (s: State)
    requires Grounded(t) && May(moves, x) && May(moves, y) && x.d != y.d
    requires x.i == y.i && x.n == y.n && x.f != y.f
    ensures ReachableWithin(t, moves, s) && !ReadsAgree(s)
  {
    if Clear(t, x, y) {
      s := TwoGenerations(t, moves, x, y);
    } else {
      s := TwoGenerations(t, moves, y, x);
    }
    assert s.leases[0].observed[0] != s.leases[0].observed[1];
  }

  /** Every read of every run is of one generation exactly if a directory that may appear in two
      domains keeps its lease files. */
  lemma OneGenerationIff(t: Topology, moves: Moves)
    requires Grounded(t)
    ensures Separated(t, moves) <==> forall s: State :: ReachableWithin(t, moves, s) ==> ReadsAgree(s)
  {
    if Separated(t, moves) {
      forall s: State | ReachableWithin(t, moves, s) ensures ReadsAgree(s) {
        SeparatedReadsAgree(t, moves, s);
      }
    } else {
      var x: Place, y: Place :|
        May(moves, x) && May(moves, y) && x.d != y.d && x.i == y.i && x.n == y.n && x.f != y.f;
      var s := SharedDirectoryFails(t, moves, x, y);
    }
  }

  /** Active readers read from the tree that they have validated. */
  predicate AnchorsAreSeen(s: State) {
    forall r | r in s.leases && Reading(s.leases[r]) :: s.leases[r].anchor == s.leases[r].seen
  }

  /** No two domains share a turnstile, and no turnstile is a domain. */
  ghost predicate DistinctGates(t: Topology) {
    && DistinctInodes(t)
    && forall d: Domain, e: Domain :: d != e ==> t.gateInode(d) != t.gateInode(e)
  }

  /** ... and with distinct turnstiles exactly then every anchor is the tree that was validated. */
  lemma AnchorsAreSeenIff(t: Topology, moves: Moves)
    requires DistinctGates(t)
    ensures Separated(t, moves) <==> forall s: State :: ReachableWithin(t, moves, s) ==> AnchorsAreSeen(s)
  {
    if Separated(t, moves) {
      forall s: State | ReachableWithin(t, moves, s) ensures AnchorsAreSeen(s) {
        ReachableSnapshots(t, moves, s);
        assert forall r | r in s.leases :: Steady(s.disk, s.leases[r]);
      }
    } else {
      var x: Place, y: Place :|
        May(moves, x) && May(moves, y) && x.d != y.d && x.i == y.i && x.n == y.n && x.f != y.f;
      var s := StaleAnchor(t, moves, x, y);
    }
  }

  lemma SharedFileWaits(t: Topology, moves: Moves, x: Place, y: Place) returns (s: State)
    requires Grounded(t) && May(moves, x) && May(moves, y) && x.d != y.d && x.f == y.f
    ensures ReachableWithin(t, moves, s) && !DataLocksAreFree(t, s)
  {
    if Clear(t, x, y) {
      s := DataLockWaits(t, moves, x, y);
    } else {
      s := DataLockWaits(t, moves, y, x);
    }
  }

  lemma OwnLeaseFilesAreFree(t: Topology, moves: Moves, s: State)
    requires ReachableWithin(t, moves, s) && OwnLeaseFiles(t, moves)
    ensures DataLocksAreFree(t, s)
  {
    forall p | p in s.leases && CanStep(t, s.disk, s.leases[p], TakeData) ensures Enabled(t, s, Take(p, TakeData)) {
      DataLockNeverWaits(t, moves, s, p);
    }
  }

  /** The data lock of no run waits exactly if no lease file is found in two domains. */
  lemma DataLocksFreeIff(t: Topology, moves: Moves)
    requires Grounded(t)
    ensures OwnLeaseFiles(t, moves) <==> forall s: State :: ReachableWithin(t, moves, s) ==> DataLocksAreFree(t, s)
  {
    if OwnLeaseFiles(t, moves) {
      forall s: State | ReachableWithin(t, moves, s) ensures DataLocksAreFree(t, s) {
        OwnLeaseFilesAreFree(t, moves, s);
      }
    } else {
      var x: Place, y: Place :|
        May(moves, x) && May(moves, y) && x.d != y.d && x.f == y.f;
      var s := SharedFileWaits(t, moves, x, y);
    }
  }

  // ---- when a downgrade waits -------------------------------------------------------

  const ANYWHERE := Moves((path: Path, d: Domain) => true, (path: Path, i: Inode) => true, (slot: Slot, f: Inode) => true)

  /** A reader whose record is missing, from the comparison to the gap. */
  function Draining(x: Place, at: Point): Lease {
    At(x, false, Compared).(at := at, changed := true,
                            domain := if at.Compared? || at.Gap? then Unlocked else Exclusive)
  }

  lemma DrainingJoins(t: Topology, d: Disk, x: Place)
    requires Located(d, x) && ArtifactAt(x) !in d.records
    ensures var l := At(x, false, Admitted);
            && CanStep(t, d, l, Compare(x.f)) && LeaseAfter(t, d, l, Compare(x.f)) == Draining(x, Compared)
            && DiskAfter(t, d, l, Compare(x.f)) == d
    ensures var l := Draining(x, Compared);
            && CanStep(t, d, l, TakeDomain) && LeaseAfter(t, d, l, TakeDomain) == Draining(x, Joined)
    ensures var l := Draining(x, Joined);
            && CanStep(t, d, l, ValidateParent) && LeaseAfter(t, d, l, ValidateParent) == Draining(x, JoinedValid)
    ensures var l := Draining(x, JoinedValid);
            && CanStep(t, d, l, RevalidateLease) && LeaseAfter(t, d, l, RevalidateLease) == Draining(x, Coordinated)
  {
    assert d.leaseAt[Slot(x.i, x.n) := x.f] == d.leaseAt;
  }

  function Emptied(d: Disk, x: Place): Disk { d.(records := d.records[ArtifactAt(x) := Empty]) }

  function Rewritten(d: Disk, x: Place): Disk {
    d.(records := d.records[ArtifactAt(x) := Empty][ArtifactAt(x) := Identity(x.i, x.f)])
  }

  lemma DrainingRecords(t: Topology, d: Disk, x: Place)
    ensures var l := Draining(x, Coordinated);
            && CanStep(t, d, l, Truncate) && LeaseAfter(t, d, l, Truncate) == Draining(x, Truncated)
            && DiskAfter(t, d, l, Truncate) == Emptied(d, x)
    ensures var l := Draining(x, Truncated);
            && CanStep(t, Emptied(d, x), l, WriteRecord) && LeaseAfter(t, Emptied(d, x), l, WriteRecord) == Draining(x, Recorded)
            && DiskAfter(t, Emptied(d, x), l, WriteRecord) == Rewritten(d, x)
  {
  }

  lemma DrainingDrops(t: Topology, d: Disk, x: Place)
    ensures var l := Draining(x, Recorded);
            && CanStep(t, d, l, DropForShared) && LeaseAfter(t, d, l, DropForShared) == Draining(x, Gap)
            && DiskAfter(t, d, l, DropForShared) == d
  {
  }

  /** A reader alone comes to the gap of its downgrade. */
  lemma ReaderReachesGap(t: Topology, moves: Moves, d: Disk, x: Place)
    requires moves.domain(x.p, x.d) && ReachableWithin(t, moves, State(d, map[])) && Located(d, x) && ArtifactAt(x) !in d.records
    ensures Stands(t, moves, map[], 0, Rewritten(d, x), Draining(x, Gap))
  {
    Enters(t, moves, map[], 0, d, x, false);
    DrainingJoins(t, d, x);
    Advance(t, moves, map[], 0, d, At(x, false, Admitted), Compare(x.f));
    Advance(t, moves, map[], 0, d, Draining(x, Compared), TakeDomain);
    Advance(t, moves, map[], 0, d, Draining(x, Joined), ValidateParent);
    Advance(t, moves, map[], 0, d, Draining(x, JoinedValid), RevalidateLease);
    DrainingRecords(t, d, x);
    Advance(t, moves, map[], 0, d, Draining(x, Coordinated), Truncate);
    Advance(t, moves, map[], 0, Emptied(d, x), Draining(x, Truncated), WriteRecord);
    DrainingDrops(t, Rewritten(d, x), x);
    Advance(t, moves, map[], 0, Rewritten(d, x), Draining(x, Recorded), DropForShared);
  }

  function TwoPlaces(x: Place, y: Place): Disk {
    Disk(map[x.p := x.i, y.p := y.i], map[Slot(x.i, x.n) := x.f, Slot(y.i, y.n) := y.f], map[], map[], map[])
  }

  lemma GapLeavesRoom(t: Topology, x: Place, y: Place)
    requires Grounded(t) && t.gateInode(y.d) == t.domainInode(x.d)
    ensures Vacant(t, map[0 := Draining(x, Gap)], y.d, true)
  {
    var l := Draining(x, Gap);
    assert DomainOf(l) == x.d && l.domain == Unlocked;
  }

  lemma GateIsTakenInGap(t: Topology, moves: Moves, x: Place, y: Place)
    requires Grounded(t) && t.gateInode(y.d) == t.domainInode(x.d)
    requires May(moves, x) && May(moves, y) && x.i != y.i && x.p != y.p
    ensures Stands(t, moves, map[0 := Draining(x, Gap)], 1, Rewritten(TwoPlaces(x, y), x), At(y, true, Admitted))
  {
    var d, r := TwoPlaces(x, y), Draining(x, Gap);
    assert RunWithin(t, moves, State(d, map[]), [], State(d, map[]));
    ReaderReachesGap(t, moves, d, x);
    assert map[][0 := r] == map[0 := r];
    GapLeavesRoom(t, x, y);
    Enters(t, moves, map[0 := r], 1, Rewritten(d, x), y, true);
  }

  lemma GateKeepsOut(t: Topology, d: Disk, x: Place, y: Place)
    requires t.gateInode(y.d) == t.domainInode(x.d)
    ensures !Enabled(t, State(d, map[0 := Draining(x, Gap)][1 := At(y, true, Admitted)]), Take(0, RetakeShared))
  {
    var s := State(d, map[0 := Draining(x, Gap)][1 := At(y, true, Admitted)]);
    assert !Permits(t, s.leases[1], s.leases[0], RetakeShared);
  }

  /** A reader stands in the gap of its domain; a lease whose turnstile that domain is takes it. */
  lemma DowngradeWaits(t: Topology, d: Domain, e: Domain) returns (s: State)
    requires Grounded(t) && t.gateInode(e) == t.domainInode(d)
    ensures Reachable(t, s) && 0 in s.leases && s.leases[0].at == Gap && !Enabled(t, s, Take(0, RetakeShared))
  {
    var x, y := Place(d, 0, 0, 0, 0), Place(e, 1, 1, 0, 1);
    GateIsTakenInGap(t, ANYWHERE, x, y);
    s := State(Rewritten(TwoPlaces(x, y), x), map[0 := Draining(x, Gap)][1 := At(y, true, Admitted)]);
    AnywhereReachable(t, ANYWHERE, s);
    GateKeepsOut(t, s.disk, x, y);
  }

  lemma AnywhereReachable(t: Topology, moves: Moves, s: State)
    requires ReachableWithin(t, moves, s)
    ensures Reachable(t, s)
  {
    var s0: State, actions: seq<Action> :|
      Initial(s0) && DiskWithin(moves, s0.disk) && RunWithin(t, moves, s0, actions, s);
    WithinIsExecution(t, moves, s0, actions, s);
  }

  predicate DowngradesAreFree(t: Topology, s: State) {
    forall r | r in s.leases && s.leases[r].at == Gap :: Enabled(t, s, Take(r, RetakeShared))
  }

  /** No downgrade of any run waits exactly if no domain is the turnstile of another. */
  lemma DowngradesFreeIff(t: Topology)
    requires Grounded(t)
    ensures NoGateIsDomain(t) <==> forall s: State :: Reachable(t, s) ==> DowngradesAreFree(t, s)
  {
    if NoGateIsDomain(t) {
      forall s: State | Reachable(t, s) ensures DowngradesAreFree(t, s) {
        forall r | r in s.leases && s.leases[r].at == Gap ensures Enabled(t, s, Take(r, RetakeShared)) {
          DowngradeNeverWaits(t, s, r);
        }
      }
    } else {
      var d: Domain, e: Domain :| t.gateInode(e) == t.domainInode(d);
      var s := DowngradeWaits(t, d, e);
    }
  }
}
