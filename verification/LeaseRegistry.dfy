/** Reentrancy of artifact leases inside one thread or task: the four registries of active
    domains, parents and roots, and the lease object that enters and leaves them. */
module LeaseRegistry {
  import opened Wrappers

  type Owner = nat
  type Domain = nat
  type Path = nat
  type Inode = nat
  type Fd = nat

  datatype ActiveDomain = ActiveDomain(exclusive: bool, count: nat, owner: Owner)
  datatype ActiveParent = ActiveParent(inode: Inode, count: nat, owner: Owner)
  datatype ActiveRoot = ActiveRoot(fd: Fd, owner: Owner)

  datatype Registry = Registry(domains: map<Domain, ActiveDomain>,
                               parents: map<Path, ActiveParent>,
                               rootFds: map<Fd, Owner>,
                               rootPaths: map<Path, seq<ActiveRoot>>)

  const EMPTY := Registry(map[], map[], map[], map[])

  /** The fields of a lease object that matter here. */
  datatype Lease = Lease(root: Path, parent: Path, domain: Domain, exclusive: bool,
                         rootFd: Option<Fd>, parentInode: Option<Inode>,
                         gateLocked: bool, domainLocked: bool, leaseLocked: bool,
                         reentrant: bool, active: bool)

  datatype Anchor = Unreachable | Missing | Opened(fd: Fd)

  /** What the kernel answers during one attempt to enter: the inode found at the parent path,
      the root anchor, whether every lock and check of the outermost path succeeded, whether the
      parent is still current, and whether the turnstile could be given back. */
  datatype Attempt = Attempt(parent: Option<Inode>, anchor: Anchor,
                             granted: bool, current: bool, turnstileReturned: bool)

  // ---- the registries, as values ----------------------------------------------------

  /** Drop the last occurrence of `x`, if there is one. */
  function WithoutLast<T(==)>(s: seq<T>, x: T): seq<T> {
    if s == [] then []
    else if s[|s| - 1] == x then s[..|s| - 1]
    else WithoutLast(s[..|s| - 1], x) + [s[|s| - 1]]
  }

  function PushRoot(g: Registry, root: Path, fd: Fd, owner: Owner): Registry {
    var entries := if root in g.rootPaths then g.rootPaths[root] else [];
    g.(rootFds := g.rootFds[fd := owner],
       rootPaths := g.rootPaths[root := entries + [ActiveRoot(fd, owner)]])
  }

  function PopRoot(g: Registry, root: Path, fd: Fd, owner: Owner): Registry {
    var entries := WithoutLast(if root in g.rootPaths then g.rootPaths[root] else [], ActiveRoot(fd, owner));
    g.(rootFds := g.rootFds - {fd},
       rootPaths := if entries == [] then g.rootPaths - {root} else g.rootPaths[root := entries])
  }

  /** No list of entries is empty. */
  predicate NoEmptyEntries(g: Registry) { forall r | r in g.rootPaths :: g.rootPaths[r] != [] }

  /** Can `parent` be recorded for this owner at this inode? */
  predicate ParentAgrees(g: Registry, parent: Path, inode: Inode, owner: Owner) {
    parent in g.parents ==> g.parents[parent].owner == owner && g.parents[parent].inode == inode
  }

  function RecordParent(g: Registry, parent: Path, inode: Inode, owner: Owner): Registry {
    var count := if parent in g.parents then g.parents[parent].count + 1 else 1;
    g.(parents := g.parents[parent := ActiveParent(inode, count, owner)])
  }

  function ReleaseParent(g: Registry, parent: Path, owner: Owner): Registry {
    if parent !in g.parents || g.parents[parent].owner != owner then g
    else
      var e := g.parents[parent];
      g.(parents := if e.count <= 1 then g.parents - {parent} else g.parents[parent := e.(count := e.count - 1)])
  }

  function CountDomain(g: Registry, domain: Domain, exclusive: bool, owner: Owner): Registry {
    var e := if domain in g.domains
             then ActiveDomain(g.domains[domain].exclusive || exclusive, g.domains[domain].count + 1, owner)
             else ActiveDomain(exclusive, 1, owner);
    g.(domains := g.domains[domain := e])
  }

  function UncountDomain(g: Registry, domain: Domain): Registry
    requires domain in g.domains
  {
    var e := g.domains[domain];
    g.(domains := if e.count <= 1 then g.domains - {domain} else g.domains[domain := e.(count := e.count - 1)])
  }

  /** The domain is counted once more and no other; its mode can only have become exclusive. */
  predicate CountedOnce(g: Registry, g': Registry, domain: Domain) {
    && g'.domains.Keys == g.domains.Keys + {domain}
    && g'.domains[domain].count == (if domain in g.domains then g.domains[domain].count else 0) + 1
    && (domain in g.domains && g.domains[domain].exclusive ==> g'.domains[domain].exclusive)
    && forall d | d in g.domains && d != domain :: g'.domains[d] == g.domains[d]
  }

  /** Parents, roots and all other domains are as before. */
  predicate OnlyDomainMoved(g: Registry, g': Registry, domain: Domain) {
    && g'.parents == g.parents && g'.rootFds == g.rootFds && g'.rootPaths == g.rootPaths
    && (g' == g || CountedOnce(g, g', domain))
  }

  /** The registries with one more active lease. */
  function Push(g: Registry, l: Lease, owner: Owner): Registry
    requires l.parentInode.Some?
  {
    CountDomain(PushAnchors(g, l, owner), l.domain, l.exclusive, owner)
  }

  /** ... with its parent and its root. */
  function PushAnchors(g: Registry, l: Lease, owner: Owner): Registry
    requires l.parentInode.Some?
  {
    var g1 := RecordParent(g, l.parent, l.parentInode.value, owner);
    if l.rootFd.Some? then PushRoot(g1, l.root, l.rootFd.value, owner) else g1
  }

  /** The registries do not depend on each other. */
  lemma CountFirst(g: Registry, l: Lease, owner: Owner)
    requires l.parentInode.Some?
    ensures PushAnchors(CountDomain(g, l.domain, l.exclusive, owner), l, owner) == Push(g, l, owner)
  {
  }

  function Unmark(g: Registry, l: Lease, owner: Owner): Registry {
    if !l.active || l.domain !in g.domains then g
    else
      var g1 := if l.rootFd.Some? then PopRoot(g, l.root, l.rootFd.value, owner) else g;
      UncountDomain(ReleaseParent(g1, l.parent, owner), l.domain)
  }

  /** Popping the entry pushed last restores the root registries. */
  lemma RootUndone(g: Registry, h: Registry, root: Path, fd: Fd, owner: Owner)
    requires fd !in g.rootFds && (root in g.rootPaths ==> g.rootPaths[root] != [])
    requires h.rootFds == PushRoot(g, root, fd, owner).rootFds
    requires h.rootPaths == PushRoot(g, root, fd, owner).rootPaths
    ensures PopRoot(h, root, fd, owner) == h.(rootFds := g.rootFds, rootPaths := g.rootPaths)
  {
    var entries := if root in g.rootPaths then g.rootPaths[root] else [];
    assert (entries + [ActiveRoot(fd, owner)])[..|entries|] == entries;
    assert PopRoot(h, root, fd, owner).rootPaths == g.rootPaths;
    assert PopRoot(h, root, fd, owner).rootFds == g.rootFds;
  }

  /** Releasing a parent that was recorded last restores the parent registry. */
  lemma ParentUndone(g: Registry, h: Registry, parent: Path, inode: Inode, owner: Owner)
    requires ParentAgrees(g, parent, inode, owner) && (parent in g.parents ==> g.parents[parent].count > 0)
    requires h.parents == RecordParent(g, parent, inode, owner).parents
    ensures ReleaseParent(h, parent, owner) == h.(parents := g.parents)
  {
    assert ReleaseParent(h, parent, owner).parents == g.parents;
  }

  // ---- resolving paths --------------------------------------------------------------

  /** May paths below `root` be resolved through its last entry? */
  predicate Anchors(g: Registry, root: Path, owner: Owner) {
    && root in g.rootPaths && g.rootPaths[root] != []
    && g.rootPaths[root][|g.rootPaths[root]| - 1].owner == owner
  }

  function LastEntry(g: Registry, root: Path): ActiveRoot
    requires root in g.rootPaths && g.rootPaths[root] != []
  {
    g.rootPaths[root][|g.rootPaths[root]| - 1]
  }

  /** The root through which a path is resolved: the longest of those above it that have an anchor. */
  ghost predicate ResolvesThrough(g: Registry, owner: Owner, above: (Path, Path) -> bool, length: Path -> nat,
                                  candidate: Path, root: Option<Path>)
  {
    match root
    case None => forall r | r in g.rootPaths && above(r, candidate) :: !Anchors(g, r, owner)
    case Some(x) =>
      && Anchors(g, x, owner) && above(x, candidate)
      && forall r | Anchors(g, r, owner) && above(r, candidate) :: length(r) <= length(x)
  }

  // ---- entering and leaving ---------------------------------------------------------

  /** A lease after `release`: descriptors closed, locks gone. */
  function Released(l: Lease): Lease {
    if l.reentrant then l.(active := false, rootFd := None, parentInode := None, reentrant := false)
    else l.(active := false, rootFd := None, parentInode := None,
            gateLocked := false, domainLocked := false, leaseLocked := false)
  }

  datatype Entry = Entry(g: Registry, lease: Lease, ok: bool)

  function Refused(g: Registry, l: Lease, owner: Owner): Entry {
    Entry(Unmark(g, l, owner), Released(l), false)
  }

  predicate IsReentrant(g: Registry, l: Lease, owner: Owner) {
    l.domain in g.domains && g.domains[l.domain].owner == owner
  }

  datatype Intent = Intent(g: Registry, lease: Lease, nested: bool, error: bool)

  /** The end of joining: the lease is counted, unless the parent was recorded at another inode. */
  function JoinAnchored(g: Registry, l: Lease, owner: Owner): Intent
    requires l.parentInode.Some?
  {
    var anchored := l.(reentrant := true, active := true);
    if ParentAgrees(g, l.parent, l.parentInode.value, owner)
    then Intent(Push(g, anchored, owner), anchored, true, false)
    else Intent(g, anchored, false, true)
  }

  /** Joining with the parent's inode known. */
  function JoinLocated(g: Registry, l: Lease, anchor: Anchor, owner: Owner): Intent
    requires l.parentInode.Some?
  {
    if l.parent in g.parents && g.parents[l.parent].owner == owner && g.parents[l.parent].inode != l.parentInode.value
    then Intent(g, l, false, true)
    else if l.rootFd.None? && anchor.Unreachable? then Intent(g, l, false, true)
    else
      JoinAnchored(g, l.(rootFd := if l.rootFd.Some? then l.rootFd
                                   else if anchor.Opened? then Some(anchor.fd) else None), owner)
  }

  /** Joining a lease this owner already holds on the domain: no lock is taken. */
  function JoinReentrant(g: Registry, l: Lease, a: Attempt, owner: Owner): Intent {
    if !IsReentrant(g, l, owner) then Intent(g, l, false, false)
    else if l.exclusive && !g.domains[l.domain].exclusive then Intent(g, l, false, true)
    else
      var inode := if l.parentInode.Some? then l.parentInode else a.parent;
      if inode.None? then Intent(g, l, false, true)
      else JoinLocated(g, l.(parentInode := inode), a.anchor, owner)
  }

  /** A lease that holds all its locks becomes active; a reader then gives the turnstile back. */
  function Activate(g: Registry, l: Lease, a: Attempt, owner: Owner): Entry
    requires l.parentInode.Some?
  {
    var m := MarkOutermost(g, l, owner);
    if !m.ok then Refused(m.g, m.lease, owner)
    else if l.exclusive then m
    else if !a.turnstileReturned then Refused(m.g, m.lease.(gateLocked := false), owner)
    else m.(lease := m.lease.(gateLocked := false))
  }

  /** Entering as the lease that takes the locks itself. */
  function EnterOutermost(g: Registry, l: Lease, a: Attempt, owner: Owner): Entry {
    var inode := if l.parentInode.Some? then l.parentInode else a.parent;
    if inode.None? || !a.granted || a.anchor.Unreachable? then Refused(g, l, owner)
    else
      Activate(g, l.(parentInode := inode,
                     rootFd := if a.anchor.Opened? then Some(a.anchor.fd) else None,
                     gateLocked := true, domainLocked := true, leaseLocked := true), a, owner)
  }

  function Enter(g: Registry, l: Lease, a: Attempt, owner: Owner): Entry {
    var i := JoinReentrant(g, l, a, owner);
    if i.error || (i.nested && !a.current) then Refused(i.g, i.lease, owner)
    else if i.nested then Entry(i.g, i.lease.(leaseLocked := true), true)
    else EnterOutermost(g, l, a, owner)
  }

  /** `_mark_active`: on a refusal by the parent registry the domain has been counted already. */
  function MarkOutermost(g: Registry, l: Lease, owner: Owner): Entry
    requires l.parentInode.Some?
  {
    if l.domain in g.domains && g.domains[l.domain].owner != owner then Entry(g, l, false)
    else if !ParentAgrees(g, l.parent, l.parentInode.value, owner)
    then Entry(CountDomain(g, l.domain, l.exclusive, owner), l, false)
    else Entry(Push(g, l, owner), l.(active := true), true)
  }

  /** What joining does and does not do, whatever the kernel answers. */
  predicate JoinsWithoutLocks(g: Registry, l: Lease, i: Intent, owner: Owner) {
    && !(i.nested && i.error) && (i.nested || i.error <==> IsReentrant(g, l, owner))
    && i.lease.gateLocked == l.gateLocked && i.lease.domainLocked == l.domainLocked && i.lease.leaseLocked == l.leaseLocked
    && (!i.nested ==> i.g == g)
    && (i.nested ==> i.lease.active && (l.exclusive ==> g.domains[l.domain].exclusive) && CountedOnce(g, i.g, l.domain))
  }

  lemma CountCounts(g: Registry, domain: Domain, exclusive: bool, owner: Owner)
    ensures OnlyDomainMoved(g, CountDomain(g, domain, exclusive, owner), domain)
    ensures CountedOnce(g, CountDomain(g, domain, exclusive, owner), domain)
  {
  }

  lemma PushCounts(g: Registry, l: Lease, owner: Owner)
    requires l.parentInode.Some?
    ensures CountedOnce(g, Push(g, l, owner), l.domain)
  {
    CountCounts(g, l.domain, l.exclusive, owner);
    assert Push(g, l, owner).domains == CountDomain(g, l.domain, l.exclusive, owner).domains;
  }

  lemma LocatedTakesNoLocks(g: Registry, l: Lease, anchor: Anchor, owner: Owner)
    requires l.parentInode.Some? && IsReentrant(g, l, owner) && (l.exclusive ==> g.domains[l.domain].exclusive)
    ensures JoinsWithoutLocks(g, l, JoinLocated(g, l, anchor, owner), owner)
  {
    var i := JoinLocated(g, l, anchor, owner);
    if i.nested {
      PushCounts(g, i.lease, owner);
    }
  }

  lemma JoinTakesNoLocks(g: Registry, l: Lease, a: Attempt, owner: Owner)
    ensures JoinsWithoutLocks(g, l, JoinReentrant(g, l, a, owner), owner)
  {
    var inode := if l.parentInode.Some? then l.parentInode else a.parent;
    if IsReentrant(g, l, owner) && (l.exclusive ==> g.domains[l.domain].exclusive) && inode.Some? {
      LocatedTakesNoLocks(g, l.(parentInode := inode), a.anchor, owner);
    }
  }

  /** A refusal to mark leaves the lease and all registries but one alone; the domain may have been
      counted before the refusal. */
  predicate MarksOrOnlyCounts(g: Registry, l: Lease, m: Entry) {
    if m.ok then m.lease == l.(active := true) && CountedOnce(g, m.g, l.domain)
    else m.lease == l && OnlyDomainMoved(g, m.g, l.domain)
  }

  lemma MarkCounts(g: Registry, l: Lease, owner: Owner)
    requires l.parentInode.Some?
    ensures MarksOrOnlyCounts(g, l, MarkOutermost(g, l, owner))
  {
    PushCounts(g, l, owner);
    CountCounts(g, l.domain, l.exclusive, owner);
  }

  // ---- the code, step by step -------------------------------------------------------

  /** The four context variables of one execution. */
  class Context {
    const owner: Owner
    var registry: Registry

    constructor (owner: Owner)
      ensures registry == EMPTY && this.owner == owner
    {
      this.owner, registry := owner, EMPTY;
    }

    method SetActiveDomain(domain: Domain, value: ActiveDomain)
      modifies this
      ensures registry == old(registry).(domains := old(registry).domains[domain := value])
    {
      registry := registry.(domains := registry.domains[domain := value]);
    }

    method PushActiveRoot(root: Path, fd: Fd)
      modifies this
      ensures registry == PushRoot(old(registry), root, fd, owner)
      ensures fd !in old(registry).rootFds && NoEmptyEntries(old(registry))
              ==> PopRoot(registry, root, fd, owner) == old(registry) && NoEmptyEntries(registry)
    {
      ghost var g := registry;
      registry := registry.(rootFds := registry.rootFds[fd := owner]);
      var entries := [];
      if root in registry.rootPaths {
        entries := registry.rootPaths[root];
      }
      registry := registry.(rootPaths := registry.rootPaths[root := entries + [ActiveRoot(fd, owner)]]);
      if fd !in g.rootFds && NoEmptyEntries(g) {
        RootUndone(g, registry, root, fd, owner);
      }
    }

    method PopActiveRoot(root: Path, fd: Fd)
      modifies this
      ensures registry == PopRoot(old(registry), root, fd, owner)
    {
      var current := [];
      if root in registry.rootPaths {
        current := registry.rootPaths[root];
      }
      current := RemoveLast(current, ActiveRoot(fd, owner));
      if current != [] {
        registry := registry.(rootPaths := registry.rootPaths[root := current]);
      } else {
        registry := registry.(rootPaths := registry.rootPaths - {root});
      }
      registry := registry.(rootFds := registry.rootFds - {fd});
    }

    /** Refuses, and changes nothing, when another owner or another inode is recorded. */
    method RecordActiveParent(parent: Path, inode: Inode) returns (ok: bool)
      modifies this
      ensures ok == ParentAgrees(old(registry), parent, inode, owner)
      ensures registry == if ok then RecordParent(old(registry), parent, inode, owner) else old(registry)
    {
      if parent !in registry.parents {
        registry := registry.(parents := registry.parents[parent := ActiveParent(inode, 1, owner)]);
        return true;
      }
      var e := registry.parents[parent];
      if e.owner != owner || e.inode != inode {
        return false;
      }
      registry := registry.(parents := registry.parents[parent := ActiveParent(inode, e.count + 1, owner)]);
      return true;
    }

    /** The descriptor through which a path is resolved, if any; `order` is the sorted list of roots,
        longest first. */
    method ArtifactPath(candidate: Path, order: seq<Path>, above: (Path, Path) -> bool, ghost length: Path -> nat)
      returns (root: Option<Path>, fd: Option<Fd>)
      requires forall r :: r in order <==> r in registry.rootPaths
      requires forall i, j | 0 <= i < j < |order| :: length(order[i]) >= length(order[j])
      ensures ResolvesThrough(registry, owner, above, length, candidate, root)
      ensures fd == if root.Some? then Some(LastEntry(registry, root.value).fd) else None
    {
      for i := 0 to |order|
        invariant forall j | 0 <= j < i && above(order[j], candidate) :: !Anchors(registry, order[j], owner)
      {
        assert order[i] in order;
        var entries := registry.rootPaths[order[i]];
        if entries != [] && entries[|entries| - 1].owner == owner && above(order[i], candidate) {
          forall r | Anchors(registry, r, owner) && above(r, candidate) ensures length(r) <= length(order[i]) {
            assert r in order;
          }
          return Some(order[i]), Some(entries[|entries| - 1].fd);
        }
      }
      return None, None;
    }

    method ReleaseActiveParent(parent: Path)
      modifies this
      ensures registry == ReleaseParent(old(registry), parent, owner)
      ensures forall g: Registry, inode: Inode ::
                old(registry) == RecordParent(g, parent, inode, owner) && ParentAgrees(g, parent, inode, owner)
                && (parent in g.parents ==> g.parents[parent].count > 0)
                ==> registry == g
    {
      forall g: Registry, inode: Inode
        | registry == RecordParent(g, parent, inode, owner) && ParentAgrees(g, parent, inode, owner)
          && (parent in g.parents ==> g.parents[parent].count > 0)
        ensures ReleaseParent(registry, parent, owner) == g
      {
        ParentUndone(g, registry, parent, inode, owner);
      }
      if parent !in registry.parents {
        return;
      }
      var e := registry.parents[parent];
      if e.owner == owner {
        if e.count <= 1 {
          registry := registry.(parents := registry.parents - {parent});
        } else {
          registry := registry.(parents := registry.parents[parent := e.(count := e.count - 1)]);
        }
      }
    }
  }

  /** Search from the end and remove the first match. */
  method RemoveLast<T(==)>(s: seq<T>, x: T) returns (r: seq<T>)
    ensures r == WithoutLast(s, x)
  {
    var index := |s|;
    assert s[..index] == s;
    while index > 0
      invariant 0 <= index <= |s|
      invariant WithoutLast(s, x) == WithoutLast(s[..index], x) + s[index..]
    {
      index := index - 1;
      assert s[..index + 1][..index] == s[..index];
      if s[index] == x {
        return s[..index] + s[index + 1..];
      }
      assert s[index..] == [s[index]] + s[index + 1..];
    }
    return s;
  }

  class ArtifactLease {
    const context: Context
    const root: Path
    const parent: Path
    const domain: Domain
    const exclusive: bool
    var rootFd: Option<Fd>
    var parentInode: Option<Inode>
    var gateLocked: bool
    var domainLocked: bool
    var leaseLocked: bool
    var reentrant: bool
    var active: bool

    function View(): Lease
      reads this
    {
      Lease(root, parent, domain, exclusive, rootFd, parentInode,
            gateLocked, domainLocked, leaseLocked, reentrant, active)
    }

    constructor (context: Context, root: Path, parent: Path, domain: Domain, exclusive: bool)
      ensures this.context == context
      ensures View() == Lease(root, parent, domain, exclusive, None, None, false, false, false, false, false)
    {
      this.context, this.root, this.parent, this.domain, this.exclusive := context, root, parent, domain, exclusive;
      rootFd, parentInode := None, None;
      gateLocked, domainLocked, leaseLocked, reentrant, active := false, false, false, false, false;
    }

    method UnmarkActive()
      modifies this, context
      ensures context.registry == Unmark(old(context.registry), old(View()), context.owner)
      ensures View() == old(View()).(active := false)
    {
      if !active {
        return;
      }
      if domain !in context.registry.domains {
        active := false;
        return;
      }
      var current := context.registry.domains[domain];
      if rootFd.Some? {
        context.PopActiveRoot(root, rootFd.value);
      }
      context.ReleaseActiveParent(parent);
      if current.count <= 1 {
        context.registry := context.registry.(domains := context.registry.domains - {domain});
      } else {
        context.SetActiveDomain(domain, current.(count := current.count - 1));
      }
      active := false;
    }

    method Release()
      modifies this, context
      ensures context.registry == Unmark(old(context.registry), old(View()), context.owner)
      ensures View() == Released(old(View()))
    {
      UnmarkActive();
      rootFd, parentInode := None, None;
      if reentrant {
        reentrant := false;
        return;
      }
      leaseLocked, domainLocked, gateLocked := false, false, false;
    }

    /** Tells whether the lease is nested now; after an error the caller must release it. */
    method EnterReentrantIfSafe(a: Attempt) returns (nested: bool, error: bool)
      modifies this, context
      ensures Intent(context.registry, View(), nested, error)
              == JoinReentrant(old(context.registry), old(View()), a, context.owner)
      ensures JoinsWithoutLocks(old(context.registry), old(View()), Intent(context.registry, View(), nested, error), context.owner)
    {
      JoinTakesNoLocks(context.registry, View(), a, context.owner);
      if domain !in context.registry.domains || context.registry.domains[domain].owner != context.owner {
        return false, false;
      }
      var current := context.registry.domains[domain];
      if exclusive && !current.exclusive {
        return false, true;
      }
      if parentInode.None? {
        if a.parent.None? {
          return false, true;
        }
        parentInode := a.parent;
      }
      nested, error := EnterLocated(a.anchor);
    }

    /** The checks that remain once the parent's inode is known. */
    method EnterLocated(anchor: Anchor) returns (nested: bool, error: bool)
      requires parentInode.Some? && IsReentrant(context.registry, View(), context.owner)
      requires exclusive ==> context.registry.domains[domain].exclusive
      modifies this, context
      ensures Intent(context.registry, View(), nested, error)
              == JoinLocated(old(context.registry), old(View()), anchor, context.owner)
    {
      if parent in context.registry.parents {
        var e := context.registry.parents[parent];
        if e.owner == context.owner && e.inode != parentInode.value {
          return false, true;
        }
      }
      if rootFd.None? {
        if anchor.Unreachable? {
          return false, true;
        }
        rootFd := if anchor.Opened? then Some(anchor.fd) else None;
      }
      var joined := Join();
      return joined, !joined;
    }

    /** Counts the lease in the registries, unless the parent was recorded at another inode. */
    method Join() returns (ok: bool)
      requires parentInode.Some? && IsReentrant(context.registry, View(), context.owner)
      requires exclusive ==> context.registry.domains[domain].exclusive
      modifies this, context
      ensures Intent(context.registry, View(), ok, !ok) == JoinAnchored(old(context.registry), old(View()), context.owner)
    {
      var current := context.registry.domains[domain];
      reentrant := true;
      active := true;
      ok := RecordAnchors();
      if ok {
        context.SetActiveDomain(domain, current.(count := current.count + 1));
      }
    }

    /** Parent and root of a lease that becomes active. */
    method RecordAnchors() returns (ok: bool)
      requires parentInode.Some?
      modifies context
      ensures ok == ParentAgrees(old(context.registry), parent, parentInode.value, context.owner)
      ensures context.registry == if ok then PushAnchors(old(context.registry), View(), context.owner) else old(context.registry)
    {
      ok := context.RecordActiveParent(parent, parentInode.value);
      if ok && rootFd.Some? {
        context.PushActiveRoot(root, rootFd.value);
      }
    }

    /** Counts the domain, unless another owner is recorded. */
    method CountActiveDomain() returns (ok: bool)
      modifies context
      ensures ok == (domain in old(context.registry).domains ==> old(context.registry).domains[domain].owner == context.owner)
      ensures context.registry == if ok then CountDomain(old(context.registry), domain, exclusive, context.owner)
                                  else old(context.registry)
    {
      if domain !in context.registry.domains {
        context.SetActiveDomain(domain, ActiveDomain(exclusive, 1, context.owner));
        return true;
      }
      var current := context.registry.domains[domain];
      ok := current.owner == context.owner;
      if ok {
        context.SetActiveDomain(domain, ActiveDomain(current.exclusive || exclusive, current.count + 1, context.owner));
      }
    }

    /** The last step of an outermost acquisition, all locks being held. */
    method MarkActive() returns (ok: bool)
      requires parentInode.Some?
      modifies this, context
      ensures Entry(context.registry, View(), ok) == MarkOutermost(old(context.registry), old(View()), context.owner)
      ensures MarksOrOnlyCounts(old(context.registry), old(View()), Entry(context.registry, View(), ok))
    {
      MarkCounts(context.registry, View(), context.owner);
      CountFirst(context.registry, View(), context.owner);
      ok := CountActiveDomain();
      if !ok {
        return;
      }
      ok := RecordAnchors();
      if ok {
        active := true;
      }
    }

    method BecomeActive(a: Attempt) returns (ok: bool)
      requires parentInode.Some?
      modifies this, context
      ensures Entry(context.registry, View(), ok) == Activate(old(context.registry), old(View()), a, context.owner)
    {
      ok := MarkActive();
      if !ok {
        Release();
      } else if !exclusive {
        gateLocked := false;
        if !a.turnstileReturned {
          Release();
          ok := false;
        }
      }
    }

    method AcquireOutermost(a: Attempt) returns (ok: bool)
      modifies this, context
      ensures Entry(context.registry, View(), ok) == EnterOutermost(old(context.registry), old(View()), a, context.owner)
    {
      var inode := if parentInode.Some? then parentInode else a.parent;
      if inode.None? || !a.granted || a.anchor.Unreachable? {
        Release();
        return false;
      }
      parentInode := inode;
      gateLocked, domainLocked, leaseLocked := true, true, true;
      rootFd := if a.anchor.Opened? then Some(a.anchor.fd) else None;
      ok := BecomeActive(a);
    }

    /** Enter the lease; on any failure release it again. */
    method Acquire(a: Attempt) returns (ok: bool)
      modifies this, context
      ensures Entry(context.registry, View(), ok) == Enter(old(context.registry), old(View()), a, context.owner)
    {
      var nested, error := EnterReentrantIfSafe(a);
      if error || (nested && !a.current) {
        Release();
        ok := false;
      } else if nested {
        leaseLocked := true;
        ok := true;
      } else {
        ok := AcquireOutermost(a);
      }
    }
  }
}
