/** Waiting: readers of several artifacts take their domains in the order of the sorted root
    paths, each domain through its turnstile.  When can such waiting close a circle? */
module LockOrder {
  import opened Texts

  type Pid = nat
  type File = nat

  const SLASH: char := '/'

  // ---- sorted paths -----------------------------------------------------------------

  /** Two texts of which neither begins with the other are ordered like any texts that begin with
      them. */
  lemma {:induction false} PrefixesDecide(p: Text, q: Text, a: Text, b: Text)
    requires p <= a && q <= b && !(p <= q) && !(q <= p)
    ensures Less(a, b) <==> Less(p, q)
  {
    if p[0] == q[0] {
      assert p == [p[0]] + p[1..] && q == [q[0]] + q[1..];
      assert !(p[1..] <= q[1..]) && !(q[1..] <= p[1..]);
      PrefixesDecide(p[1..], q[1..], a[1..], b[1..]);
    }
  }

  /** A directory path with its separator. */
  function Key(domain: Text): Text { domain + [SLASH] }

  /** The roots that processes may ask for, the domain that coordinates each root, the turnstile of
      each domain, and the lease files that each root may come to lead to when directories and lease
      files are moved.  Domains and turnstiles are directories.  `nests` tells whether processes take
      further leases while they hold some. */
  datatype World = World(domainOf: Text -> Text, gateOf: Text -> Text, leads: (Text, File) -> bool,
                         roots: iset<Text>, nests: bool)

  /** A domain is a directory above its roots, its turnstile a directory above the domain; every root
      has a lease file. */
  ghost predicate Laid(w: World) {
    forall r :: r in w.roots ==>
      && Key(w.domainOf(r)) <= r && w.gateOf(w.domainOf(r)) < w.domainOf(r)
      && exists f: File :: w.leads(r, f)
  }

  ghost predicate InUse(w: World, d: Text) {
    exists r :: r in w.roots && w.domainOf(r) == d
  }

  /** Some root of `d` is sorted before some root of `e`. */
  ghost predicate Ahead(w: World, d: Text, e: Text) {
    exists r, s :: r in w.roots && s in w.roots && w.domainOf(r) == d && w.domainOf(s) == e && Less(r, s)
  }

  /** Of two domains one has all its roots sorted before all roots of the other. */
  ghost predicate FamiliesApart(w: World) {
    forall d, e :: d != e ==> !(Ahead(w, d, e) && Ahead(w, e, d))
  }

  /** No domain in use is above another one. */
  ghost predicate Unnested(w: World) {
    forall r, s :: r in w.roots && s in w.roots && w.domainOf(r) != w.domainOf(s)
      ==> !(Key(w.domainOf(r)) <= Key(w.domainOf(s)))
  }

  ghost predicate SortedRoots(w: World, roots: seq<Text>) {
    && (forall i | 0 <= i < |roots| :: roots[i] in w.roots)
    && (forall i, j | 0 <= i < j < |roots| :: Less(roots[i], roots[j]))
  }

  /** Where no domain is above another, the sorted order keeps families apart. */
  lemma UnnestedFamiliesApart(w: World)
    requires Laid(w) && Unnested(w)
    ensures FamiliesApart(w)
  {
    forall d, e | d != e && Ahead(w, d, e) && Ahead(w, e, d) ensures false {
      var r, s :| r in w.roots && s in w.roots && w.domainOf(r) == d && w.domainOf(s) == e && Less(r, s);
      var s', r' :| s' in w.roots && r' in w.roots && w.domainOf(s') == e && w.domainOf(r') == d && Less(s', r');
      PrefixesDecide(Key(d), Key(e), r, s);
      PrefixesDecide(Key(e), Key(d), s', r');
      LessTransitive(Key(d), Key(e), Key(d));
      LessIrreflexive(Key(d));
    }
  }

  /** A domain above another one is not kept apart from it if it has roots on both sides. */
  lemma NestedFamiliesMix(w: World, r: Text, s: Text, r': Text)
    requires r in w.roots && s in w.roots && r' in w.roots && Less(r, s) && Less(s, r')
    requires w.domainOf(r) == w.domainOf(r') != w.domainOf(s)
    ensures !FamiliesApart(w)
  {
    assert Ahead(w, w.domainOf(r), w.domainOf(s)) && Ahead(w, w.domainOf(s), w.domainOf(r'));
  }

  /** Where families are apart, one root decides for all. */
  lemma AheadIsAll(w: World, d: Text, e: Text, r: Text, s: Text)
    requires FamiliesApart(w) && Ahead(w, d, e) && d != e
    requires r in w.roots && s in w.roots && w.domainOf(r) == d && w.domainOf(s) == e
    ensures Less(r, s)
  {
    LessTotal(r, s);
    if Less(s, r) {
      assert Ahead(w, e, d);
    }
  }

  lemma AheadTransitive(w: World, a: Text, b: Text, c: Text)
    requires FamiliesApart(w) && Ahead(w, a, b) && Ahead(w, b, c) && a != b && b != c
    ensures a != c && Ahead(w, a, c)
  {
    var r, s :| r in w.roots && s in w.roots && w.domainOf(r) == a && w.domainOf(s) == b && Less(r, s);
    var s', u :| s' in w.roots && u in w.roots && w.domainOf(s') == b && w.domainOf(u) == c && Less(s', u);
    AheadIsAll(w, b, c, s, u);
    LessTransitive(r, s, u);
  }

  /** The roots of one domain stand together. */
  ghost predicate Contiguous(w: World, roots: seq<Text>) {
    forall i, j, k | 0 <= i < j < k < |roots| && w.domainOf(roots[i]) == w.domainOf(roots[k]) ::
      w.domainOf(roots[j]) == w.domainOf(roots[i])
  }

  lemma Separated(w: World, r: Text, s: Text, r': Text)
    requires r in w.roots && s in w.roots && r' in w.roots && Less(r, s) && Less(s, r') && Less(r, r')
    requires w.domainOf(r) == w.domainOf(r') != w.domainOf(s)
    ensures exists roots: seq<Text> :: SortedRoots(w, roots) && !Contiguous(w, roots)
  {
    var x := [r, s, r'];
    assert x[0] == r && x[1] == s && x[2] == r';
    assert SortedRoots(w, x) && !Contiguous(w, x);
  }

  /** Sorted lists hold the roots of each domain together exactly if the families are apart. */
  lemma FamiliesAreContiguous(w: World)
    ensures FamiliesApart(w) <==> forall roots: seq<Text> :: SortedRoots(w, roots) ==> Contiguous(w, roots)
  {
    if FamiliesApart(w) {
      forall roots: seq<Text>, i: nat, j: nat, k: nat
        | SortedRoots(w, roots) && i < j < k < |roots| && w.domainOf(roots[i]) == w.domainOf(roots[k])
        ensures w.domainOf(roots[j]) == w.domainOf(roots[i])
      {
        if w.domainOf(roots[j]) != w.domainOf(roots[i]) {
          NestedFamiliesMix(w, roots[i], roots[j], roots[k]);
        }
      }
    } else {
      var d, e :| d != e && Ahead(w, d, e) && Ahead(w, e, d);
      var r, s :| r in w.roots && s in w.roots && w.domainOf(r) == d && w.domainOf(s) == e && Less(r, s);
      var s', r' :| s' in w.roots && r' in w.roots && w.domainOf(s') == e && w.domainOf(r') == d && Less(s', r');
      LessTotal(s, r');
      if Less(s, r') {
        LessTransitive(r, s, r');
        Separated(w, r, s, r');
      } else {
        LessTransitive(s', r', s);
        Separated(w, s', r', s);
      }
    }
  }

  // ---- leases in order ----------------------------------------------------------------

  /** A lease that takes locks itself. */
  datatype Want = Want(root: Text, exclusive: bool)

  function DomainOf(w: World, x: Want): Text { w.domainOf(x.root) }

  predicate Entered(w: World, held: seq<Want>, d: Text) {
    exists i :: 0 <= i < |held| && DomainOf(w, held[i]) == d
  }

  /** Roots asked for in turn: one whose domain is entered already takes no locks. */
  function Touches(w: World, held: seq<Want>, roots: seq<Text>): seq<Want> {
    if roots == [] then held
    else
      var before := Touches(w, held, roots[..|roots| - 1]);
      var r := roots[|roots| - 1];
      if Entered(w, before, w.domainOf(r)) then before else before + [Want(r, false)]
  }

  ghost predicate Distinct(w: World, leases: seq<Want>) {
    && (forall i | 0 <= i < |leases| :: leases[i].root in w.roots)
    && (forall i, j | 0 <= i < j < |leases| :: DomainOf(w, leases[i]) != DomainOf(w, leases[j]))
  }

  /** Each domain ahead of the later ones. */
  ghost predicate Ascending(w: World, leases: seq<Want>) {
    forall i, j | 0 <= i < j < |leases| :: Ahead(w, DomainOf(w, leases[i]), DomainOf(w, leases[j]))
  }

  lemma {:induction false} TouchesAreDistinct(w: World, held: seq<Want>, roots: seq<Text>)
    requires Distinct(w, held) && SortedRoots(w, roots)
    ensures Distinct(w, Touches(w, held, roots)) && held <= Touches(w, held, roots)
  {
    if roots != [] {
      var n := |roots| - 1;
      TouchesAreDistinct(w, held, roots[..n]);
      var before := Touches(w, held, roots[..n]);
      if !Entered(w, before, w.domainOf(roots[n])) {
        forall i | 0 <= i < |before| ensures DomainOf(w, before[i]) != w.domainOf(roots[n]) {
        }
      }
    }
  }

  /** Sorted roots touch their domains in an order in which each has a root sorted before one of
      every later domain. */
  lemma {:induction false} SortedRootsAscend(w: World, roots: seq<Text>)
    requires SortedRoots(w, roots)
    ensures Ascending(w, Touches(w, [], roots))
    ensures forall x | x in Touches(w, [], roots) :: x.root in roots
  {
    if roots != [] {
      var n := |roots| - 1;
      SortedRootsAscend(w, roots[..n]);
      var before := Touches(w, [], roots[..n]);
      forall i | 0 <= i < |before| ensures Ahead(w, DomainOf(w, before[i]), w.domainOf(roots[n])) {
        assert before[i] in before;
        var j :| 0 <= j < n && roots[j] == before[i].root;
      }
    }
  }

  // ---- processes ----------------------------------------------------------------------

  /** How far the lease is that a process is acquiring: before the turnstile; inside it, before the
      domain, asking for it exclusively if the identity file drains; with the domain exclusively,
      rewriting that file; in the gap of the downgrade; before the data lock on a lease file. */
  datatype Stage = AtGate | AtDomain(drains: bool) | Draining | InGap | AtData(file: File)

  /** The leases that a process holds or wants, and the lease files of those it holds; the first
      lease without a file is the one it is acquiring. */
  datatype Process = Process(leases: seq<Want>, files: seq<File>, stage: Stage)

  datatype Lock = Directory(path: Text) | LeaseFile(file: File)

  /** What a process asks for at once: sorted roots to read, or one root to publish. */
  datatype Batch = Readers(roots: seq<Text>) | Publisher(root: Text)

  datatype Step = Ask(pid: Pid, batch: Batch)
                | TakeGate(pid: Pid, drains: bool)
                | TakeDomain(pid: Pid, file: File)
                | Downgrade(pid: Pid)
                | Retake(pid: Pid, file: File)
                | TakeData(pid: Pid)
                | Leave(pid: Pid, kept: nat)

  type Population = map<Pid, Process>

  predicate WellFormed(p: Process) {
    |p.files| <= |p.leases| && (|p.files| == |p.leases| ==> p.stage == AtGate)
  }

  predicate Acquiring(p: Process) { |p.files| < |p.leases| }

  function Next(p: Process): Want
    requires Acquiring(p)
  {
    p.leases[|p.files|]
  }

  predicate Waiting(p: Process) { Acquiring(p) && p.stage != Draining }

  /** A lease that is held keeps its domain, its data lock, and, if exclusive, its turnstile. */
  predicate HoldsTaken(w: World, p: Process, lock: Lock, exclusively: bool)
    requires WellFormed(p)
  {
    exists i :: 0 <= i < |p.files|
      && match lock
         case Directory(x) =>
           || (p.leases[i].exclusive && w.gateOf(DomainOf(w, p.leases[i])) == x)
           || (DomainOf(w, p.leases[i]) == x && (exclusively ==> p.leases[i].exclusive))
         case LeaseFile(f) => p.files[i] == f && (exclusively ==> p.leases[i].exclusive)
  }

  /** What the lease that is being acquired holds. */
  predicate HoldsNext(w: World, p: Process, x: Text, exclusively: bool) {
    && Acquiring(p) && p.stage != AtGate
    && (|| w.gateOf(DomainOf(w, Next(p))) == x
        || (DomainOf(w, Next(p)) == x
            && (p.stage.Draining? || (p.stage.AtData? && (exclusively ==> Next(p).exclusive)))))
  }

  /** Does `p` have the lock, exclusively or at least so that nobody else can have it exclusively?
      One process may lock a directory as a domain and ask for it as a turnstile: the two
      descriptors exclude each other all the same. */
  predicate Holds(w: World, p: Process, lock: Lock, exclusively: bool)
    requires WellFormed(p)
  {
    HoldsTaken(w, p, lock, exclusively) || (lock.Directory? && HoldsNext(w, p, lock.path, exclusively))
  }

  function Wanted(w: World, p: Process): Lock
    requires Waiting(p)
  {
    match p.stage
    case AtGate => Directory(w.gateOf(DomainOf(w, Next(p))))
    case AtData(f) => LeaseFile(f)
    case _ => Directory(DomainOf(w, Next(p)))
  }

  predicate WantsExclusively(p: Process)
    requires Waiting(p)
  {
    match p.stage
    case AtGate => true
    case AtDomain(drains) => drains || Next(p).exclusive
    case InGap => false
    case AtData(_) => Next(p).exclusive
  }

  /** `p` cannot proceed because of what `q`, which may be `p` itself, holds. */
  predicate WaitsFor(w: World, p: Process, q: Process)
    requires WellFormed(p) && WellFormed(q)
  {
    Waiting(p) && Holds(w, q, Wanted(w, p), !WantsExclusively(p))
  }

  ghost predicate Ok(s: Population) { forall p | p in s :: WellFormed(s[p]) }

  ghost predicate CanAsk(w: World, batch: Batch) {
    match batch
    case Readers(roots) => roots != [] && SortedRoots(w, roots)
    case Publisher(root) => root in w.roots
  }

  /** The leases with those of the batch that take locks.  Publishing in a domain that is entered
      already takes none: it joins, or is refused. */
  function Asked(w: World, held: seq<Want>, batch: Batch): seq<Want> {
    match batch
    case Readers(roots) => Touches(w, held, roots)
    case Publisher(root) => if Entered(w, held, w.domainOf(root)) then held else held + [Want(root, true)]
  }

  /** Nobody, the process itself included, holds what `p` waits for. */
  ghost predicate Granted(w: World, s: Population, p: Process)
    requires Ok(s) && WellFormed(p)
  {
    Waiting(p) && forall q | q in s :: !WaitsFor(w, p, s[q])
  }

  ghost predicate Possible(w: World, s: Population, a: Step) {
    && Ok(s)
    && (!a.Ask? ==> a.pid in s)
    && match a
       case Ask(pid, batch) =>
         CanAsk(w, batch) && (pid in s ==> !Acquiring(s[pid]) && (w.nests || s[pid].leases == []))
       case TakeGate(pid, drains) =>
         s[pid].stage == AtGate && Granted(w, s, s[pid]) && (drains ==> !Next(s[pid]).exclusive)
       case TakeDomain(pid, file) =>
         s[pid].stage.AtDomain? && Granted(w, s, s[pid]) && w.leads(Next(s[pid]).root, file)
       case Downgrade(pid) => s[pid].stage == Draining
       case Retake(pid, file) =>
         s[pid].stage == InGap && Granted(w, s, s[pid]) && w.leads(Next(s[pid]).root, file)
       case TakeData(pid) => s[pid].stage.AtData? && Granted(w, s, s[pid])
       case Leave(pid, kept) => kept <= |s[pid].files|
  }

  function Held(s: Population, pid: Pid): Process {
    if pid in s then s[pid] else Process([], [], AtGate)
  }

  /** Leaving gives leases back in reverse order, with all they hold, a wait included. */
  function Proceed(w: World, p: Process, a: Step): Process
    requires WellFormed(p) && (a.TakeDomain? ==> p.stage.AtDomain?) && (a.TakeData? ==> p.stage.AtData?)
    requires a.Leave? ==> a.kept <= |p.files|
  {
    match a
    case Ask(_, batch) => p.(leases := Asked(w, p.leases, batch), stage := AtGate)
    case TakeGate(_, drains) => p.(stage := AtDomain(drains))
    case TakeDomain(_, file) => p.(stage := if p.stage.drains then Draining else AtData(file))
    case Downgrade(_) => p.(stage := InGap)
    case Retake(_, file) => p.(stage := AtData(file))
    case TakeData(_) => p.(files := p.files + [p.stage.file], stage := AtGate)
    case Leave(_, kept) => Process(p.leases[..kept], p.files[..kept], AtGate)
  }

  ghost function After(w: World, s: Population, a: Step): Population
    requires Possible(w, s, a)
  {
    s[a.pid := Proceed(w, Held(s, a.pid), a)]
  }

  ghost predicate Runs(w: World, s: Population, steps: seq<Step>, s': Population)
    decreases |steps|
  {
    if steps == [] then s' == s
    else Possible(w, s, steps[0]) && Runs(w, After(w, s, steps[0]), steps[1..], s')
  }

  ghost predicate Reachable(w: World, s: Population) {
    exists steps: seq<Step> :: Runs(w, map[], steps, s)
  }

  /** Processes each of which waits for the next, and the last of which is the first. */
  ghost predicate Circle(w: World, s: Population, c: seq<Pid>) {
    && Ok(s) && |c| >= 2 && c[0] == c[|c| - 1]
    && (forall i | 0 <= i < |c| :: c[i] in s)
    && (forall i, j | 0 <= i && j == i + 1 && j < |c| :: WaitsFor(w, s[c[i]], s[c[j]]))
  }

  ghost predicate Deadlocks(w: World) {
    exists s: Population, c: seq<Pid> :: Reachable(w, s) && Circle(w, s, c)
  }

  // ---- what every run keeps -----------------------------------------------------------

  /** The turnstiles of domains in use are directories of their own: no other domain has them, as
      its turnstile or as itself. */
  ghost predicate OwnGates(w: World) {
    forall d, e :: InUse(w, d) && InUse(w, e) && d != e ==> w.gateOf(d) != w.gateOf(e) && w.gateOf(d) != e
  }

  /** No lease file is found in two domains. */
  ghost predicate OwnFiles(w: World) {
    forall r, s, f :: r in w.roots && s in w.roots && w.leads(r, f) && w.leads(s, f) ==> w.domainOf(r) == w.domainOf(s)
  }

  ghost predicate OneDomain(w: World) {
    forall d, e :: InUse(w, d) && InUse(w, e) ==> d == e
  }

  ghost predicate Orderly(w: World) {
    OwnGates(w) && FamiliesApart(w) && OwnFiles(w) && (w.nests ==> OneDomain(w))
  }

  /** Leases of different domains, each ahead of the later ones unless they are nested, with lease
      files that their roots lead to. */
  ghost predicate Planned(w: World, p: Process) {
    && WellFormed(p) && Distinct(w, p.leases) && (!w.nests ==> Ascending(w, p.leases))
    && (forall i | 0 <= i < |p.files| :: w.leads(p.leases[i].root, p.files[i]))
    && (Acquiring(p) && p.stage.AtData? ==> w.leads(Next(p).root, p.stage.file))
  }

  ghost predicate AllPlanned(w: World, s: Population) {
    Ok(s) && forall p | p in s :: Planned(w, s[p])
  }

  lemma AskingStaysPlanned(w: World, p: Process, batch: Batch)
    requires Planned(w, p) && !Acquiring(p) && CanAsk(w, batch) && (w.nests || p.leases == [])
    ensures Planned(w, p.(leases := Asked(w, p.leases, batch), stage := AtGate))
  {
    if batch.Readers? {
      TouchesAreDistinct(w, p.leases, batch.roots);
      if !w.nests {
        SortedRootsAscend(w, batch.roots);
      }
    }
  }

  lemma StepStaysPlanned(w: World, s: Population, a: Step)
    requires AllPlanned(w, s) && Possible(w, s, a)
    ensures AllPlanned(w, After(w, s, a))
  {
    if a.Ask? {
      AskingStaysPlanned(w, Held(s, a.pid), a.batch);
    }
  }

  lemma {:induction false} RunsStayPlanned(w: World, s: Population, steps: seq<Step>, s': Population)
    requires AllPlanned(w, s) && Runs(w, s, steps, s')
    ensures AllPlanned(w, s')
    decreases |steps|
  {
    if steps != [] {
      StepStaysPlanned(w, s, steps[0]);
      RunsStayPlanned(w, After(w, s, steps[0]), steps[1..], s');
    }
  }

  // ---- no circle in an orderly world --------------------------------------------------

  function Rank(stage: Stage): nat {
    match stage
    case AtGate => 0
    case AtData(_) => 2
    case _ => 1
  }

  /** Position of a wait in the global order: by domain, and within a domain the turnstile before the
      domain, and the domain before the lease file. */
  ghost predicate Before(w: World, p: Process, q: Process)
    requires Acquiring(p) && Acquiring(q)
  {
    var d, e := DomainOf(w, Next(p)), DomainOf(w, Next(q));
    (d != e && Ahead(w, d, e)) || (d == e && Rank(p.stage) < Rank(q.stage))
  }

  lemma TakenIsAhead(w: World, q: Process, i: nat)
    requires Planned(w, q) && Orderly(w) && Acquiring(q) && i < |q.files|
    ensures var d, e := DomainOf(w, q.leases[i]), DomainOf(w, Next(q));
            InUse(w, d) && InUse(w, e) && d != e && Ahead(w, d, e)
  {
    assert q.leases[i].root in w.roots && q.leases[|q.files|].root in w.roots;
    assert DomainOf(w, q.leases[i]) != DomainOf(w, q.leases[|q.files|]);
    assert InUse(w, DomainOf(w, q.leases[i])) && InUse(w, DomainOf(w, q.leases[|q.files|]));
    assert !w.nests;
  }

  /** What keeps a process from a lock is a lease of the same domain. */
  lemma TakenIsSameDomain(w: World, p: Process, q: Process) returns (i: nat)
    requires Planned(w, p) && Planned(w, q) && Laid(w) && Orderly(w) && Waiting(p)
    requires HoldsTaken(w, q, Wanted(w, p), !WantsExclusively(p))
    ensures i < |q.files| && DomainOf(w, q.leases[i]) == DomainOf(w, Next(p))
  {
    var d := DomainOf(w, Next(p));
    assert InUse(w, d) && w.gateOf(d) != d;
    match Wanted(w, p) {
      case Directory(x) =>
        i :| 0 <= i < |q.files|
             && (w.gateOf(DomainOf(w, q.leases[i])) == x || DomainOf(w, q.leases[i]) == x);
        var e := DomainOf(w, q.leases[i]);
        assert InUse(w, e) && w.gateOf(e) != e;
      case LeaseFile(f) =>
        i :| 0 <= i < |q.files| && q.files[i] == f;
    }
  }

  /** Whoever blocks a process and waits itself, waits further on in the global order. */
  lemma WaitsAscend(w: World, p: Process, q: Process)
    requires Planned(w, p) && Planned(w, q) && Laid(w) && Orderly(w)
    requires WaitsFor(w, p, q) && Waiting(q)
    ensures Before(w, p, q)
  {
    if HoldsTaken(w, q, Wanted(w, p), !WantsExclusively(p)) {
      var i := TakenIsSameDomain(w, p, q);
      TakenIsAhead(w, q, i);
    } else {
      var d, e := DomainOf(w, Next(p)), DomainOf(w, Next(q));
      assert InUse(w, d) && InUse(w, e) && w.gateOf(d) != d && w.gateOf(e) != e;
    }
  }

  lemma BeforeTransitive(w: World, p: Process, q: Process, r: Process)
    requires Acquiring(p) && Acquiring(q) && Acquiring(r) && FamiliesApart(w)
    requires Before(w, p, q) && Before(w, q, r)
    ensures Before(w, p, r)
  {
    var a, b, c := DomainOf(w, Next(p)), DomainOf(w, Next(q)), DomainOf(w, Next(r));
    if a != b && b != c {
      AheadTransitive(w, a, b, c);
    }
  }

  lemma {:induction false} WaitsAscendAlong(w: World, s: Population, c: seq<Pid>, k: nat)
    requires AllPlanned(w, s) && Laid(w) && Orderly(w) && Circle(w, s, c) && 0 < k < |c|
    ensures Waiting(s[c[0]]) && Waiting(s[c[k]]) && Before(w, s[c[0]], s[c[k]])
  {
    assert WaitsFor(w, s[c[0]], s[c[1]]);
    assert WaitsFor(w, s[c[k - 1]], s[c[k]]);
    if k < |c| - 1 {
      assert WaitsFor(w, s[c[k]], s[c[k + 1]]);
    }
    WaitsAscend(w, s[c[k - 1]], s[c[k]]);
    if k > 1 {
      WaitsAscendAlong(w, s, c, k - 1);
      BeforeTransitive(w, s[c[0]], s[c[k - 1]], s[c[k]]);
    }
  }

  lemma NoCircle(w: World, s: Population, c: seq<Pid>)
    requires Reachable(w, s) && Laid(w) && Orderly(w)
    ensures !Circle(w, s, c)
  {
    var steps: seq<Step> :| Runs(w, map[], steps, s);
    RunsStayPlanned(w, map[], steps, s);
    if Circle(w, s, c) {
      WaitsAscendAlong(w, s, c, |c| - 1);
    }
  }
}
