/** Any well-nested sequence of entering and leaving leases, by one owner. */
module LeaseNesting {
  import opened Wrappers
  import opened LeaseRegistry

  /** Enter a new lease, or leave the innermost one. */
  datatype Op = EnterOp(lease: Lease, attempt: Attempt) | ExitOp

  /** The registries and the leases now entered, innermost last. */
  datatype Session = Session(g: Registry, stack: seq<Lease>)

  function Step(s: Session, op: Op, owner: Owner): Session {
    match op
    case EnterOp(l, a) =>
      var e := Enter(s.g, l, a, owner);
      Session(e.g, if e.ok then s.stack + [e.lease] else s.stack)
    case ExitOp =>
      if s.stack == [] then s
      else Session(Unmark(s.g, s.stack[|s.stack| - 1], owner), s.stack[..|s.stack| - 1])
  }

  function Run(s: Session, ops: seq<Op>, owner: Owner): Session
    decreases |ops|
  {
    if ops == [] then s else Run(Step(s, ops[0], owner), ops[1..], owner)
  }

  /** A lease object that has not been entered, for a parent path in its stable domain. */
  predicate Fresh(domainOf: Path -> Domain, l: Lease) {
    !l.active && !l.reentrant && l.domain == domainOf(l.parent)
  }

  /** The kernel does not hand out a descriptor that is still open. */
  predicate NewDescriptors(g: Registry, l: Lease, a: Attempt) {
    && (l.rootFd.Some? ==> l.rootFd.value !in g.rootFds)
    && (a.anchor.Opened? ==> a.anchor.fd !in g.rootFds)
  }

  predicate Plausible(domainOf: Path -> Domain, s: Session, op: Op) {
    op.EnterOp? ==> Fresh(domainOf, op.lease) && NewDescriptors(s.g, op.lease, op.attempt)
  }

  predicate AllPlausible(domainOf: Path -> Domain, s: Session, ops: seq<Op>, owner: Owner)
    decreases |ops|
  {
    ops == [] || (Plausible(domainOf, s, ops[0]) && AllPlausible(domainOf, Step(s, ops[0], owner), ops[1..], owner))
  }

  // ---- what the registries must say -------------------------------------------------

  function RegistryOf(stack: seq<Lease>, owner: Owner): Registry
    requires forall l | l in stack :: l.parentInode.Some?
  {
    if stack == [] then EMPTY
    else Push(RegistryOf(stack[..|stack| - 1], owner), stack[|stack| - 1], owner)
  }

  /** Number of leases of `stack` in domain `d`, and below parent `p`. */
  function Depth(stack: seq<Lease>, d: Domain): nat {
    if stack == [] then 0
    else Depth(stack[..|stack| - 1], d) + if stack[|stack| - 1].domain == d then 1 else 0
  }

  function ParentDepth(stack: seq<Lease>, p: Path): nat {
    if stack == [] then 0
    else ParentDepth(stack[..|stack| - 1], p) + if stack[|stack| - 1].parent == p then 1 else 0
  }

  /** The lease of the stack that took the locks of the domain. */
  predicate Outermost(stack: seq<Lease>, j: int, d: Domain) {
    0 <= j < |stack| && stack[j].domain == d && !stack[j].reentrant
  }

  ghost predicate FrameOk(domainOf: Path -> Domain, below: seq<Lease>, l: Lease) {
    && l.active && l.parentInode.Some? && l.leaseLocked && l.domain == domainOf(l.parent)
    && (l.reentrant <==> exists j :: Outermost(below, j, l.domain))
    && (!l.reentrant ==> l.domainLocked && l.gateLocked == l.exclusive)
    && (l.exclusive ==> forall j | Outermost(below, j, l.domain) :: below[j].exclusive)
    && (forall b | b in below && b.parent == l.parent :: b.parentInode == l.parentInode)
    && (l.rootFd.Some? ==> forall b | b in below :: b.rootFd != l.rootFd)
  }

  ghost predicate StackOk(domainOf: Path -> Domain, stack: seq<Lease>) {
    stack == [] || (StackOk(domainOf, stack[..|stack| - 1])
                    && FrameOk(domainOf, stack[..|stack| - 1], stack[|stack| - 1]))
  }

  /** The registries are a function of the leases entered and not left. */
  ghost predicate Describes(domainOf: Path -> Domain, s: Session, owner: Owner) {
    && StackOk(domainOf, s.stack)
    && (forall l | l in s.stack :: l.parentInode.Some?)
    && s.g == RegistryOf(s.stack, owner)
  }

  // ---- consequences of describing the stack -----------------------------------------

  ghost predicate DomainsAgree(g: Registry, stack: seq<Lease>, owner: Owner) {
    && (forall d :: d in g.domains <==> Depth(stack, d) > 0)
    && (forall d | d in g.domains :: g.domains[d].owner == owner && g.domains[d].count == Depth(stack, d))
    && (forall d | d in g.domains :: exists j :: Outermost(stack, j, d))
    && (forall j, d | Outermost(stack, j, d) :: d in g.domains && stack[j].exclusive == g.domains[d].exclusive)
  }

  ghost predicate ParentsAgree(g: Registry, stack: seq<Lease>, owner: Owner) {
    && (forall p :: p in g.parents <==> ParentDepth(stack, p) > 0)
    && (forall p | p in g.parents :: g.parents[p].owner == owner && g.parents[p].count == ParentDepth(stack, p))
    && (forall p | p in g.parents :: exists b :: b in stack && b.parent == p)
    && (forall b | b in stack :: b.parent in g.parents && Some(g.parents[b.parent].inode) == b.parentInode)
  }

  ghost predicate RootsAgree(g: Registry, stack: seq<Lease>) {
    && (forall fd :: fd in g.rootFds <==> exists b :: b in stack && b.rootFd == Some(fd))
    && (forall r | r in g.rootPaths :: g.rootPaths[r] != [])
  }

  lemma PushOutermost(g: Registry, below: seq<Lease>, l: Lease, owner: Owner)
    requires DomainsAgree(g, below, owner) && l.parentInode.Some?
    requires l.reentrant <==> exists j :: Outermost(below, j, l.domain)
    requires l.exclusive ==> forall j | Outermost(below, j, l.domain) :: below[j].exclusive
    ensures var stack, g' := below + [l], Push(g, l, owner);
            && (forall d | d in g'.domains :: exists j :: Outermost(stack, j, d))
            && (forall j, d | Outermost(stack, j, d) :: d in g'.domains && stack[j].exclusive == g'.domains[d].exclusive)
  {
    var stack := below + [l];
    var g' := Push(g, l, owner);
    forall d | d in g'.domains ensures exists j :: Outermost(stack, j, d) {
      if d in g.domains {
        var j :| Outermost(below, j, d);
        assert Outermost(stack, j, d);
      } else {
        assert Outermost(stack, |below|, d);
      }
    }
    forall j, d | Outermost(stack, j, d)
      ensures d in g'.domains && stack[j].exclusive == g'.domains[d].exclusive
    {
      if j < |below| {
        assert Outermost(below, j, d);
      }
    }
  }

  lemma DepthGrows(below: seq<Lease>, l: Lease, d: Domain)
    ensures Depth(below + [l], d) == Depth(below, d) + if l.domain == d then 1 else 0
  {
    assert (below + [l])[..|below|] == below;
  }

  lemma PushDomains(domainOf: Path -> Domain, g: Registry, below: seq<Lease>, l: Lease, owner: Owner)
    requires DomainsAgree(g, below, owner) && FrameOk(domainOf, below, l)
    ensures DomainsAgree(Push(g, l, owner), below + [l], owner)
  {
    var g' := Push(g, l, owner);
    forall d
      ensures d in g'.domains <==> Depth(below + [l], d) > 0
      ensures d in g'.domains ==> g'.domains[d].owner == owner && g'.domains[d].count == Depth(below + [l], d)
    {
      DepthGrows(below, l, d);
    }
    PushOutermost(g, below, l, owner);
  }

  lemma ParentDepthGrows(below: seq<Lease>, l: Lease, p: Path)
    ensures ParentDepth(below + [l], p) == ParentDepth(below, p) + if l.parent == p then 1 else 0
  {
    assert (below + [l])[..|below|] == below;
  }

  lemma RecordParents(g: Registry, g': Registry, below: seq<Lease>, l: Lease, owner: Owner)
    requires ParentsAgree(g, below, owner) && l.parentInode.Some?
    requires g'.parents == RecordParent(g, l.parent, l.parentInode.value, owner).parents
    requires forall b | b in below && b.parent == l.parent :: b.parentInode == l.parentInode
    ensures ParentsAgree(g', below + [l], owner)
  {
    var stack := below + [l];
    forall p
      ensures p in g'.parents <==> ParentDepth(stack, p) > 0
      ensures p in g'.parents ==> g'.parents[p].owner == owner && g'.parents[p].count == ParentDepth(stack, p)
    {
      ParentDepthGrows(below, l, p);
    }
    forall p | p in g'.parents ensures exists b :: b in stack && b.parent == p {
      if p == l.parent {
        assert l in stack;
      } else {
        var b :| b in below && b.parent == p;
        assert b in stack;
      }
    }
    forall b | b in stack ensures b.parent in g'.parents && Some(g'.parents[b.parent].inode) == b.parentInode {
      assert b in below || b == l;
    }
  }

  lemma PushParents(domainOf: Path -> Domain, g: Registry, below: seq<Lease>, l: Lease, owner: Owner)
    requires ParentsAgree(g, below, owner) && FrameOk(domainOf, below, l)
    ensures ParentsAgree(Push(g, l, owner), below + [l], owner)
  {
    RecordParents(g, Push(g, l, owner), below, l, owner);
  }

  lemma PushRoots(domainOf: Path -> Domain, g: Registry, below: seq<Lease>, l: Lease, owner: Owner)
    requires RootsAgree(g, below) && FrameOk(domainOf, below, l)
    ensures RootsAgree(Push(g, l, owner), below + [l])
  {
    var stack := below + [l];
    var g' := Push(g, l, owner);
    assert l in stack && forall b | b in below :: b in stack;
    forall fd ensures fd in g'.rootFds <==> exists b :: b in stack && b.rootFd == Some(fd) {
      if fd in g.rootFds {
        var b :| b in below && b.rootFd == Some(fd);
        assert b in stack;
      }
    }
  }

  /** All registries agree with the stack. */
  ghost predicate Agrees(g: Registry, stack: seq<Lease>, owner: Owner) {
    DomainsAgree(g, stack, owner) && ParentsAgree(g, stack, owner) && RootsAgree(g, stack)
  }

  lemma PushAgrees(domainOf: Path -> Domain, stack: seq<Lease>, below: seq<Lease>, l: Lease, g: Registry, g': Registry, owner: Owner)
    requires stack == below + [l] && Agrees(g, below, owner) && FrameOk(domainOf, below, l) && g' == Push(g, l, owner)
    ensures Agrees(g', stack, owner)
  {
    PushDomains(domainOf, g, below, l, owner);
    PushParents(domainOf, g, below, l, owner);
    PushRoots(domainOf, g, below, l, owner);
  }

  lemma EmptyAgrees(owner: Owner)
    ensures Agrees(EMPTY, [], owner)
  {
  }

  /** The domain registry holds, for each domain of the stack, the number of leases entered in it
      and the mode of the one that took the locks; the parent registry counts per parent. */
  lemma {:induction false} RegistryMeaning(domainOf: Path -> Domain, stack: seq<Lease>, owner: Owner)
    requires StackOk(domainOf, stack) && forall l | l in stack :: l.parentInode.Some?
    ensures Agrees(RegistryOf(stack, owner), stack, owner)
  {
    if stack == [] {
      EmptyAgrees(owner);
    } else {
      var below, l := stack[..|stack| - 1], stack[|stack| - 1];
      RegistryMeaning(domainOf, below, owner);
      PushAgrees(domainOf, stack, below, l, RegistryOf(below, owner), RegistryOf(stack, owner), owner);
    }
  }

  /** The anchor of the lease entered last for `root`, of those that have one. */
  function AnchorOf(stack: seq<Lease>, root: Path): Option<Fd> {
    if stack == [] then None
    else
      var l := stack[|stack| - 1];
      if l.root == root && l.rootFd.Some? then l.rootFd else AnchorOf(stack[..|stack| - 1], root)
  }

  /** The last entry of a root, which is where paths below it are resolved, is the anchor of the
      lease entered last for it; a root without entries has no anchored lease. */
  lemma {:induction false} InnermostAnchor(stack: seq<Lease>, owner: Owner, root: Path)
    requires forall l | l in stack :: l.parentInode.Some?
    ensures var g := RegistryOf(stack, owner);
            match AnchorOf(stack, root)
            case None => root !in g.rootPaths
            case Some(fd) => root in g.rootPaths && g.rootPaths[root] != []
                             && g.rootPaths[root][|g.rootPaths[root]| - 1] == ActiveRoot(fd, owner)
  {
    if stack != [] {
      InnermostAnchor(stack[..|stack| - 1], owner, root);
    }
  }

  /** A path below entered roots is resolved through the deepest of those that have an anchor, at the
      anchor of the lease entered last for it; below none it is resolved as it stands. */
  lemma DeepestAnchor(stack: seq<Lease>, owner: Owner, above: (Path, Path) -> bool, length: Path -> nat,
                      candidate: Path, root: Option<Path>)
    requires forall l | l in stack :: l.parentInode.Some?
    requires ResolvesThrough(RegistryOf(stack, owner), owner, above, length, candidate, root)
    ensures match root
            case None => forall r: Path | above(r, candidate) :: AnchorOf(stack, r) == None
            case Some(x) =>
              && above(x, candidate) && AnchorOf(stack, x) == Some(LastEntry(RegistryOf(stack, owner), x).fd)
              && forall r: Path | above(r, candidate) && AnchorOf(stack, r).Some? :: length(r) <= length(x)
  {
    var g := RegistryOf(stack, owner);
    forall r: Path ensures AnchorOf(stack, r).Some? <==> Anchors(g, r, owner)
                   ensures Anchors(g, r, owner) ==> AnchorOf(stack, r) == Some(LastEntry(g, r).fd)
    {
      InnermostAnchor(stack, owner, r);
    }
  }

  // ---- leaving undoes entering ------------------------------------------------------

  lemma DomainUndone(g: Registry, h: Registry, domain: Domain, exclusive: bool, owner: Owner)
    requires domain in g.domains ==> g.domains[domain].count > 0 && g.domains[domain].owner == owner
                                      && (exclusive ==> g.domains[domain].exclusive)
    requires h.domains == CountDomain(g, domain, exclusive, owner).domains
    ensures UncountDomain(h, domain) == h.(domains := g.domains)
  {
    assert UncountDomain(h, domain).domains == g.domains;
  }

  /** Unmarking the lease that was pushed last restores every registry. */
  lemma UnmarkUndoesPush(g: Registry, below: seq<Lease>, l: Lease, owner: Owner)
    requires DomainsAgree(g, below, owner) && ParentsAgree(g, below, owner) && RootsAgree(g, below)
    requires l.active && l.parentInode.Some?
    requires l.rootFd.Some? ==> l.rootFd.value !in g.rootFds
    requires l.domain in g.domains && l.exclusive ==> g.domains[l.domain].exclusive
    requires ParentAgrees(g, l.parent, l.parentInode.value, owner)
    ensures Unmark(Push(g, l, owner), l, owner) == g
  {
    var g3 := Push(g, l, owner);
    var h1 := if l.rootFd.Some? then PopRoot(g3, l.root, l.rootFd.value, owner) else g3;
    if l.rootFd.Some? {
      RootUndone(g, g3, l.root, l.rootFd.value, owner);
    }
    ParentUndone(g, h1, l.parent, l.parentInode.value, owner);
    DomainUndone(g, ReleaseParent(h1, l.parent, owner), l.domain, l.exclusive, owner);
  }

  /** What a successful attempt leaves behind. */
  ghost predicate Entered(g: Registry, l: Lease, a: Attempt, owner: Owner, g': Registry, r: Lease) {
    && r.active && r.parentInode.Some? && r.leaseLocked
    && r.domain == l.domain && r.parent == l.parent && r.exclusive == l.exclusive
    && r.reentrant == (l.domain in g.domains)
    && (!r.reentrant ==> r.domainLocked && r.gateLocked == r.exclusive)
    && (r.rootFd.Some? ==> r.rootFd == l.rootFd || (a.anchor.Opened? && r.rootFd.value == a.anchor.fd))
    && (l.domain in g.domains && l.exclusive ==> g.domains[l.domain].exclusive)
    && ParentAgrees(g, l.parent, r.parentInode.value, owner)
    && g' == Push(g, r, owner)
  }

  lemma JoinEnters(g: Registry, l: Lease, a: Attempt, owner: Owner)
    requires IsReentrant(g, l, owner) && JoinReentrant(g, l, a, owner).nested
    ensures var i := JoinReentrant(g, l, a, owner);
            Entered(g, l, a, owner, i.g, i.lease.(leaseLocked := true))
  {
  }

  lemma ActivationEnters(g: Registry, l: Lease, a: Attempt, owner: Owner)
    requires l.domain !in g.domains && !l.reentrant && l.parentInode.Some?
    requires l.leaseLocked && l.domainLocked && l.gateLocked
    requires l.rootFd.Some? ==> a.anchor.Opened? && l.rootFd.value == a.anchor.fd
    requires ParentAgrees(g, l.parent, l.parentInode.value, owner)
    ensures var m := MarkOutermost(g, l, owner);
            m.ok && Entered(g, l, a, owner, m.g, m.lease.(gateLocked := l.exclusive))
  {
    var m := MarkOutermost(g, l, owner);
    assert Push(g, l, owner) == Push(g, m.lease.(gateLocked := l.exclusive), owner);
  }

  /** Marking never refuses where the registries describe the leases entered: a parent can only have
      been recorded in its own domain, and that is not entered. */
  lemma MarkNeverRefuses(domainOf: Path -> Domain, s: Session, l: Lease, owner: Owner)
    requires Describes(domainOf, s, owner) && l.domain == domainOf(l.parent)
    requires l.parentInode.Some? && !IsReentrant(s.g, l, owner)
    ensures MarkOutermost(s.g, l, owner) == Entry(Push(s.g, l, owner), l.(active := true), true)
  {
    DescribesReady(domainOf, s, l, owner);
  }

  /** What is known of a registry that describes its stack, for a lease about to enter. */
  ghost predicate Ready(s: Session, l: Lease, owner: Owner) {
    && DomainsAgree(s.g, s.stack, owner) && ParentsAgree(s.g, s.stack, owner) && RootsAgree(s.g, s.stack)
    && (l.parent in s.g.parents ==> l.domain in s.g.domains)
  }

  lemma DescribesReady(domainOf: Path -> Domain, s: Session, l: Lease, owner: Owner)
    requires Describes(domainOf, s, owner) && l.domain == domainOf(l.parent)
    ensures Ready(s, l, owner)
  {
    RegistryMeaning(domainOf, s.stack, owner);
    ParentInDomain(domainOf, s, l, owner);
  }

  /** Entering either fails and changes no registry, or succeeds as `Entered` says. */
  lemma EnterCases(s: Session, l: Lease, a: Attempt, owner: Owner)
    requires Ready(s, l, owner) && !l.active && !l.reentrant && NewDescriptors(s.g, l, a)
    ensures var e := Enter(s.g, l, a, owner);
            if e.ok then Entered(s.g, l, a, owner, e.g, e.lease) else e.g == s.g
  {
    if IsReentrant(s.g, l, owner) {
      var i := JoinReentrant(s.g, l, a, owner);
      if i.nested {
        JoinEnters(s.g, l, a, owner);
        UnmarkUndoesPush(s.g, s.stack, i.lease, owner);
      } else {
        JoinRefuses(s, l, a, owner);
      }
    } else {
      OutermostCases(s, l, a, owner);
    }
  }

  lemma JoinRefuses(s: Session, l: Lease, a: Attempt, owner: Owner)
    requires Ready(s, l, owner) && !l.active && !l.reentrant
    requires IsReentrant(s.g, l, owner) && !JoinReentrant(s.g, l, a, owner).nested
    ensures var i := JoinReentrant(s.g, l, a, owner);
            i.error && i.g == s.g && !i.lease.active
  {
  }

  lemma OutermostCases(s: Session, l: Lease, a: Attempt, owner: Owner)
    requires Ready(s, l, owner) && !l.active && !l.reentrant && NewDescriptors(s.g, l, a)
    requires !IsReentrant(s.g, l, owner)
    ensures var e := EnterOutermost(s.g, l, a, owner);
            if e.ok then Entered(s.g, l, a, owner, e.g, e.lease) else e.g == s.g
  {
    var inode := if l.parentInode.Some? then l.parentInode else a.parent;
    if inode.Some? && a.granted && !a.anchor.Unreachable? {
      var locked := l.(parentInode := inode,
                       rootFd := if a.anchor.Opened? then Some(a.anchor.fd) else None,
                       gateLocked := true, domainLocked := true, leaseLocked := true);
      ActivationEnters(s.g, locked, a, owner);
      var m := MarkOutermost(s.g, locked, owner);
      if !l.exclusive {
        UnmarkUndoesPush(s.g, s.stack, m.lease.(gateLocked := false), owner);
      }
    }
  }

  /** An attempt that is refused leaves every registry as it was. */
  lemma RefusalChangesNothing(domainOf: Path -> Domain, s: Session, l: Lease, a: Attempt, owner: Owner)
    requires Describes(domainOf, s, owner) && Fresh(domainOf, l) && NewDescriptors(s.g, l, a)
    requires !Enter(s.g, l, a, owner).ok
    ensures Enter(s.g, l, a, owner).g == s.g
  {
    DescribesReady(domainOf, s, l, owner);
    EnterCases(s, l, a, owner);
  }

  /** A parent that is recorded lies in a domain that is recorded, at the inode of every lease
      below it. */
  lemma ParentInDomain(domainOf: Path -> Domain, s: Session, l: Lease, owner: Owner)
    requires Describes(domainOf, s, owner) && l.domain == domainOf(l.parent)
    requires DomainsAgree(s.g, s.stack, owner) && ParentsAgree(s.g, s.stack, owner)
    ensures l.parent in s.g.parents ==> l.domain in s.g.domains
  {
    if l.parent in s.g.parents {
      var b :| b in s.stack && b.parent == l.parent;
      DepthPositive(domainOf, s.stack, b);
    }
  }

  lemma {:induction false} DepthPositive(domainOf: Path -> Domain, stack: seq<Lease>, b: Lease)
    requires StackOk(domainOf, stack) && b in stack
    ensures b.domain == domainOf(b.parent) && Depth(stack, b.domain) > 0
  {
    if b != stack[|stack| - 1] {
      DepthPositive(domainOf, stack[..|stack| - 1], b);
    }
  }

  /** An attempt that succeeds adds exactly one lease to what the registries describe: nested
      without locks if the domain is entered already, otherwise holding its locks. */
  lemma SuccessExtendsStack(domainOf: Path -> Domain, s: Session, l: Lease, a: Attempt, owner: Owner)
    requires Describes(domainOf, s, owner) && Fresh(domainOf, l) && NewDescriptors(s.g, l, a)
    requires Enter(s.g, l, a, owner).ok
    ensures Describes(domainOf, Step(s, EnterOp(l, a), owner), owner)
    ensures Enter(s.g, l, a, owner).lease.reentrant <==> l.domain in s.g.domains
  {
    DescribesReady(domainOf, s, l, owner);
    EnterCases(s, l, a, owner);
    var e := Enter(s.g, l, a, owner);
    FrameFits(domainOf, s, l, a, owner, e.lease);
    Extended(domainOf, s, e.g, e.lease, owner);
  }

  lemma Extended(domainOf: Path -> Domain, s: Session, g: Registry, r: Lease, owner: Owner)
    requires Describes(domainOf, s, owner) && FrameOk(domainOf, s.stack, r) && g == Push(s.g, r, owner)
    ensures Describes(domainOf, Session(g, s.stack + [r]), owner)
  {
    var stack := s.stack + [r];
    assert stack[..|stack| - 1] == s.stack;
  }

  lemma FrameFits(domainOf: Path -> Domain, s: Session, l: Lease, a: Attempt, owner: Owner, r: Lease)
    requires Ready(s, l, owner) && Fresh(domainOf, l) && NewDescriptors(s.g, l, a)
    requires r.parentInode.Some? && Entered(s.g, l, a, owner, Push(s.g, r, owner), r)
    ensures FrameOk(domainOf, s.stack, r)
  {
    if r.rootFd.Some? {
      assert r.rootFd.value !in s.g.rootFds;
    }
  }

  lemma PopReady(domainOf: Path -> Domain, s: Session, owner: Owner)
    requires Describes(domainOf, s, owner) && s.stack != []
    requires var below := s.stack[..|s.stack| - 1];
             DomainsAgree(RegistryOf(below, owner), below, owner)
             && ParentsAgree(RegistryOf(below, owner), below, owner)
             && RootsAgree(RegistryOf(below, owner), below)
    ensures var g, l := RegistryOf(s.stack[..|s.stack| - 1], owner), s.stack[|s.stack| - 1];
            && (l.rootFd.Some? ==> l.rootFd.value !in g.rootFds)
            && (l.domain in g.domains && l.exclusive ==> g.domains[l.domain].exclusive)
            && ParentAgrees(g, l.parent, l.parentInode.value, owner)
  {
    var below, l := s.stack[..|s.stack| - 1], s.stack[|s.stack| - 1];
    var g := RegistryOf(below, owner);
    assert FrameOk(domainOf, below, l);
    if l.domain in g.domains {
      var j :| Outermost(below, j, l.domain);
      assert below[j].exclusive == g.domains[l.domain].exclusive;
    }
    if l.parent in g.parents {
      var b :| b in below && b.parent == l.parent;
    }
  }

  lemma StepKeepsDescribing(domainOf: Path -> Domain, s: Session, op: Op, owner: Owner)
    requires Describes(domainOf, s, owner) && Plausible(domainOf, s, op)
    ensures Describes(domainOf, Step(s, op, owner), owner)
  {
    match op {
      case EnterOp(l, a) =>
        if Enter(s.g, l, a, owner).ok {
          SuccessExtendsStack(domainOf, s, l, a, owner);
        } else {
          RefusalChangesNothing(domainOf, s, l, a, owner);
        }
      case ExitOp =>
        if s.stack != [] {
          var below, l := s.stack[..|s.stack| - 1], s.stack[|s.stack| - 1];
          RegistryMeaning(domainOf, below, owner);
          PopReady(domainOf, s, owner);
          UnmarkUndoesPush(RegistryOf(below, owner), below, l, owner);
        }
    }
  }

  /** Whatever leases are entered and left, in whatever order of nesting, and whatever fails on
      the way: the registries are exactly those of the leases still entered. */
  lemma {:induction false} RunDescribes(domainOf: Path -> Domain, s: Session, ops: seq<Op>, owner: Owner)
    requires Describes(domainOf, s, owner) && AllPlausible(domainOf, s, ops, owner)
    ensures Describes(domainOf, Run(s, ops, owner), owner)
    decreases |ops|
  {
    if ops != [] {
      StepKeepsDescribing(domainOf, s, ops[0], owner);
      RunDescribes(domainOf, Step(s, ops[0], owner), ops[1..], owner);
    }
  }

  // ---- the sum over parents ---------------------------------------------------------

  ghost function Total(m: map<Path, ActiveParent>, ps: set<Path>): nat
    requires ps <= m.Keys
  {
    if ps == {} then 0
    else
      var p :| p in ps;
      m[p].count + Total(m, ps - {p})
  }

  lemma {:induction false} TotalSplit(m: map<Path, ActiveParent>, ps: set<Path>, x: Path)
    requires ps <= m.Keys && x in ps
    ensures Total(m, ps) == m[x].count + Total(m, ps - {x})
    decreases ps
  {
    var p :| p in ps && Total(m, ps) == m[p].count + Total(m, ps - {p});
    if p != x {
      TotalSplit(m, ps - {p}, x);
      TotalSplit(m, ps - {x}, p);
      assert ps - {p} - {x} == ps - {x} - {p};
    }
  }

  lemma {:induction false} TotalAgrees(m: map<Path, ActiveParent>, m': map<Path, ActiveParent>, ps: set<Path>)
    requires ps <= m.Keys && ps <= m'.Keys && forall p | p in ps :: m[p].count == m'[p].count
    ensures Total(m, ps) == Total(m', ps)
    decreases ps
  {
    if ps != {} {
      var p :| p in ps;
      TotalSplit(m, ps, p);
      TotalSplit(m', ps, p);
      TotalAgrees(m, m', ps - {p});
    }
  }

  function ParentsIn(domainOf: Path -> Domain, g: Registry, d: Domain): set<Path> {
    set p | p in g.parents && domainOf(p) == d
  }

  /** The depth of a domain is the sum of the counts of its parents. */
  lemma {:induction false} DepthIsParentSum(domainOf: Path -> Domain, stack: seq<Lease>, owner: Owner, d: Domain)
    requires StackOk(domainOf, stack) && forall l | l in stack :: l.parentInode.Some?
    ensures var g := RegistryOf(stack, owner);
            Depth(stack, d) == Total(g.parents, ParentsIn(domainOf, g, d))
  {
    if stack != [] {
      var below, l := stack[..|stack| - 1], stack[|stack| - 1];
      DepthIsParentSum(domainOf, below, owner, d);
      var g, g' := RegistryOf(below, owner), RegistryOf(stack, owner);
      var ps, ps' := ParentsIn(domainOf, g, d), ParentsIn(domainOf, g', d);
      assert FrameOk(domainOf, below, l);
      if l.domain == d {
        assert ps' == ps + {l.parent};
        TotalSplit(g'.parents, ps', l.parent);
        assert ps' - {l.parent} == ps - {l.parent};
        TotalAgrees(g.parents, g'.parents, ps - {l.parent});
        if l.parent in g.parents {
          TotalSplit(g.parents, ps, l.parent);
        } else {
          assert ps - {l.parent} == ps;
        }
      } else {
        assert ps' == ps;
        TotalAgrees(g.parents, g'.parents, ps);
      }
    }
  }

  // ---- the results ------------------------------------------------------------------

  /** After any well-nested run from empty registries: each domain counts the leases entered in
      it, which is also the sum of the counts of its parents, and nothing is left over once every
      lease has been left. */
  lemma NestedRun(domainOf: Path -> Domain, ops: seq<Op>, owner: Owner)
    requires AllPlausible(domainOf, Session(EMPTY, []), ops, owner)
    ensures var s := Run(Session(EMPTY, []), ops, owner);
            && (forall d :: d in s.g.domains <==> Depth(s.stack, d) > 0)
            && (forall d | d in s.g.domains ::
                  && s.g.domains[d].count == Depth(s.stack, d)
                  && Depth(s.stack, d) == Total(s.g.parents, ParentsIn(domainOf, s.g, d)))
            && (s.stack == [] ==> s.g == EMPTY)
  {
    RunDescribes(domainOf, Session(EMPTY, []), ops, owner);
    var s := Run(Session(EMPTY, []), ops, owner);
    RegistryMeaning(domainOf, s.stack, owner);
    forall d ensures Depth(s.stack, d) == Total(s.g.parents, ParentsIn(domainOf, s.g, d)) {
      DepthIsParentSum(domainOf, s.stack, owner, d);
    }
  }

  /** Whatever is entered, the lease that took the locks of its domain is still entered and still
      holds them, exclusively if anybody nested below it asked for that. */
  lemma {:induction false} LocksHeldThroughout(domainOf: Path -> Domain, stack: seq<Lease>, i: nat)
    requires StackOk(domainOf, stack) && i < |stack|
    ensures exists j :: Outermost(stack, j, stack[i].domain) && j <= i
                        && stack[j].domainLocked && stack[j].leaseLocked
                        && stack[j].gateLocked == stack[j].exclusive
                        && (stack[i].exclusive ==> stack[j].exclusive)
  {
    var n := |stack| - 1;
    var below := stack[..n];
    if i < n {
      LocksHeldThroughout(domainOf, below, i);
      var j :| Outermost(below, j, below[i].domain) && j <= i
               && below[j].domainLocked && below[j].leaseLocked
               && below[j].gateLocked == below[j].exclusive
               && (below[i].exclusive ==> below[j].exclusive);
      assert Outermost(stack, j, stack[i].domain);
    } else if stack[n].reentrant {
      var j :| Outermost(below, j, stack[n].domain);
      LocksHeldThroughout(domainOf, below, j);
      FrameLocks(domainOf, below, j);
      assert Outermost(stack, j, stack[n].domain);
    } else {
      assert Outermost(stack, n, stack[n].domain);
    }
  }

  lemma {:induction false} FrameLocks(domainOf: Path -> Domain, stack: seq<Lease>, j: nat)
    requires StackOk(domainOf, stack) && j < |stack| && !stack[j].reentrant
    ensures stack[j].domainLocked && stack[j].leaseLocked && stack[j].gateLocked == stack[j].exclusive
  {
    if j < |stack| - 1 {
      FrameLocks(domainOf, stack[..|stack| - 1], j);
    }
  }

  /** A writer nested below readers is refused, whatever the kernel answers. */
  lemma NestedExclusiveRefused(domainOf: Path -> Domain, s: Session, l: Lease, a: Attempt, owner: Owner, j: nat)
    requires Describes(domainOf, s, owner) && Fresh(domainOf, l) && NewDescriptors(s.g, l, a)
    requires Outermost(s.stack, j, l.domain) && !s.stack[j].exclusive && l.exclusive
    ensures Step(s, EnterOp(l, a), owner) == s
  {
    RegistryMeaning(domainOf, s.stack, owner);
    if Enter(s.g, l, a, owner).ok {
      DescribesReady(domainOf, s, l, owner);
      EnterCases(s, l, a, owner);
    }
    RefusalChangesNothing(domainOf, s, l, a, owner);
  }

  // ---- exactly when a lease can be entered --------------------------------------------

  /** The inode of the parent: known to the lease, or found now. */
  function KnownInode(l: Lease, a: Attempt): Option<Inode> {
    if l.parentInode.Some? then l.parentInode else a.parent
  }

  function Opened(a: Attempt): Option<Fd> { if a.anchor.Opened? then Some(a.anchor.fd) else None }

  ghost predicate DomainEntered(stack: seq<Lease>, d: Domain) { exists b :: b in stack && b.domain == d }

  /** The first lease of a domain: its locks and checks succeed, the root, if there is one, can be
      opened, and a reader can give the turnstile back. */
  predicate MayEnterOutermost(l: Lease, a: Attempt) {
    KnownInode(l, a).Some? && a.granted && a.anchor != Unreachable && (l.exclusive || a.turnstileReturned)
  }

  /** A further lease: the parent is where the leases below it found it and still current, the root
      can be opened unless that was done before, and nobody who writes is nested below readers. */
  ghost predicate MayEnterNested(stack: seq<Lease>, l: Lease, a: Attempt) {
    && KnownInode(l, a).Some? && a.current
    && (forall b | b in stack && b.parent == l.parent :: b.parentInode == KnownInode(l, a))
    && (l.rootFd.None? ==> a.anchor != Unreachable)
    && (l.exclusive ==> forall j | Outermost(stack, j, l.domain) :: stack[j].exclusive)
  }

  /** The lease as it is once it has been entered. */
  function EnteredLease(l: Lease, a: Attempt, nested: bool): Lease {
    if nested then
      l.(parentInode := KnownInode(l, a), rootFd := if l.rootFd.Some? then l.rootFd else Opened(a),
         leaseLocked := true, reentrant := true, active := true)
    else
      l.(parentInode := KnownInode(l, a), rootFd := Opened(a),
         gateLocked := l.exclusive, domainLocked := true, leaseLocked := true, active := true)
  }

  lemma EnteredDomains(domainOf: Path -> Domain, s: Session, owner: Owner, d: Domain)
    requires Describes(domainOf, s, owner) && DomainsAgree(s.g, s.stack, owner)
    ensures d in s.g.domains <==> DomainEntered(s.stack, d)
  {
    if b :| b in s.stack && b.domain == d {
      DepthPositive(domainOf, s.stack, b);
    }
    if d in s.g.domains {
      var j :| Outermost(s.stack, j, d);
      assert s.stack[j] in s.stack;
    }
  }

  lemma NestedComputes(g: Registry, l: Lease, a: Attempt, owner: Owner)
    requires IsReentrant(g, l, owner) && !l.active && !l.reentrant
    ensures var e := Enter(g, l, a, owner);
            && (e.ok <==> && KnownInode(l, a).Some? && a.current
                          && ParentAgrees(g, l.parent, KnownInode(l, a).value, owner)
                          && (l.rootFd.None? ==> a.anchor != Unreachable)
                          && (l.exclusive ==> g.domains[l.domain].exclusive))
            && (e.ok ==> e.lease == EnteredLease(l, a, true))
  {
  }

  lemma NestedPushes(g: Registry, l: Lease, a: Attempt, owner: Owner)
    requires IsReentrant(g, l, owner) && !l.active && !l.reentrant && Enter(g, l, a, owner).ok
    ensures KnownInode(l, a).Some? && Enter(g, l, a, owner).g == Push(g, EnteredLease(l, a, true), owner)
  {
    var i := JoinReentrant(g, l, a, owner);
    assert Push(g, i.lease, owner) == Push(g, i.lease.(leaseLocked := true), owner);
  }

  lemma ParentAgreesWithStack(g: Registry, stack: seq<Lease>, parent: Path, inode: Inode, owner: Owner)
    requires ParentsAgree(g, stack, owner)
    ensures ParentAgrees(g, parent, inode, owner) <==> forall b | b in stack && b.parent == parent :: b.parentInode == Some(inode)
  {
    if parent in g.parents {
      var b :| b in stack && b.parent == parent;
    }
  }

  lemma ModeAgreesWithStack(g: Registry, stack: seq<Lease>, d: Domain, owner: Owner)
    requires DomainsAgree(g, stack, owner) && d in g.domains
    ensures g.domains[d].exclusive <==> forall j | Outermost(stack, j, d) :: stack[j].exclusive
  {
    var j :| Outermost(stack, j, d);
  }

  lemma NestedExactly(s: Session, l: Lease, a: Attempt, owner: Owner)
    requires Ready(s, l, owner) && !l.active && !l.reentrant && l.domain in s.g.domains
    ensures var e := Enter(s.g, l, a, owner);
            && (e.ok <==> MayEnterNested(s.stack, l, a))
            && (e.ok ==> e.lease == EnteredLease(l, a, true) && e.g == Push(s.g, e.lease, owner))
  {
    NestedComputes(s.g, l, a, owner);
    ModeAgreesWithStack(s.g, s.stack, l.domain, owner);
    if KnownInode(l, a).Some? {
      ParentAgreesWithStack(s.g, s.stack, l.parent, KnownInode(l, a).value, owner);
    }
    if Enter(s.g, l, a, owner).ok {
      NestedPushes(s.g, l, a, owner);
    }
  }

  lemma OutermostExactly(domainOf: Path -> Domain, s: Session, l: Lease, a: Attempt, owner: Owner)
    requires Describes(domainOf, s, owner) && Fresh(domainOf, l) && l.domain !in s.g.domains
    ensures var e := Enter(s.g, l, a, owner);
            && (e.ok <==> MayEnterOutermost(l, a))
            && (e.ok ==> e.lease == EnteredLease(l, a, false) && e.g == Push(s.g, e.lease, owner))
  {
    if KnownInode(l, a).Some? {
      var locked := l.(parentInode := KnownInode(l, a), rootFd := Opened(a),
                       gateLocked := true, domainLocked := true, leaseLocked := true);
      MarkNeverRefuses(domainOf, s, locked, owner);
      assert Push(s.g, locked, owner) == Push(s.g, EnteredLease(l, a, false), owner);
    }
  }

  /** Where the registries describe the leases entered, an attempt succeeds exactly if it may: as the
      first lease of its domain or below another one.  Either way it is recorded as one more lease. */
  lemma EntersExactly(domainOf: Path -> Domain, s: Session, l: Lease, a: Attempt, owner: Owner)
    requires Describes(domainOf, s, owner) && Fresh(domainOf, l)
    ensures var e, nested := Enter(s.g, l, a, owner), DomainEntered(s.stack, l.domain);
            && (e.ok <==> if nested then MayEnterNested(s.stack, l, a) else MayEnterOutermost(l, a))
            && (e.ok ==> e.lease == EnteredLease(l, a, nested) && e.g == Push(s.g, e.lease, owner))
  {
    DescribesReady(domainOf, s, l, owner);
    EnteredDomains(domainOf, s, owner, l.domain);
    if l.domain in s.g.domains {
      NestedExactly(s, l, a, owner);
    } else {
      OutermostExactly(domainOf, s, l, a, owner);
    }
  }
}
