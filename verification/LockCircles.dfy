/** Circular waits: a run for each way in which a world can be disorderly, and the exact condition
    under which there are none. */
module LockCircles {
  import opened Texts
  import opened LockOrder

  // ---- building runs ------------------------------------------------------------------

  lemma {:induction false} RunOneMore(w: World, s: Population, steps: seq<Step>, m: Population, a: Step)
    requires Runs(w, s, steps, m) && Possible(w, m, a)
    ensures Runs(w, s, steps + [a], After(w, m, a))
    decreases |steps|
  {
    if steps == [] {
      assert steps + [a] == [a];
    } else {
      RunOneMore(w, After(w, s, steps[0]), steps[1..], m, a);
      assert (steps + [a])[1..] == steps[1..] + [a];
    }
  }

  lemma Empty(w: World)
    ensures Reachable(w, map[])
  {
    assert Runs(w, map[], [], map[]);
  }

  lemma Goes(w: World, s: Population, a: Step)
    requires Reachable(w, s) && Possible(w, s, a)
    ensures Reachable(w, After(w, s, a))
  {
    var steps: seq<Step> :| Runs(w, map[], steps, s);
    RunOneMore(w, map[], steps, s, a);
  }

  /** A step of `pid`, which is the process `p` beside the population `s`. */
  lemma Advances(w: World, s: Population, pid: Pid, p: Process, a: Step, p': Process)
    requires pid !in s && a.pid == pid && Possible(w, s[pid := p], a)
    requires Reachable(w, s[pid := p]) && p' == Proceed(w, p, a)
    ensures Reachable(w, s[pid := p'])
  {
    Goes(w, s[pid := p], a);
    assert After(w, s[pid := p], a) == s[pid := p'];
  }

  lemma Asks(w: World, s: Population, pid: Pid, batch: Batch)
    requires Reachable(w, s) && Ok(s) && pid !in s && CanAsk(w, batch)
    ensures Reachable(w, s[pid := Process(Asked(w, [], batch), [], AtGate)])
  {
    Goes(w, s, Ask(pid, batch));
  }

  /** No process of `s` keeps a lease like `x` from the lock. */
  ghost predicate Free(w: World, s: Population, lock: Lock, exclusively: bool) {
    Ok(s) && forall q | q in s :: !Holds(w, s[q], lock, !exclusively)
  }

  lemma GrantedIfFree(w: World, s: Population, pid: Pid, p: Process)
    requires pid !in s && WellFormed(p) && Waiting(p) && Free(w, s, Wanted(w, p), WantsExclusively(p))
    requires !WaitsFor(w, p, p)
    ensures Ok(s[pid := p]) && Granted(w, s[pid := p], p)
  {
  }

  /** The process `leases` with nothing held, at the stages of its first lease. */
  function First(leases: seq<Want>, stage: Stage): Process { Process(leases, [], stage) }

  lemma PassesGate(w: World, s: Population, pid: Pid, leases: seq<Want>)
    requires pid !in s && leases != [] && Reachable(w, s[pid := First(leases, AtGate)])
    requires Free(w, s, Directory(w.gateOf(DomainOf(w, leases[0]))), true)
    ensures Reachable(w, s[pid := First(leases, AtDomain(false))])
  {
    GrantedIfFree(w, s, pid, First(leases, AtGate));
    Advances(w, s, pid, First(leases, AtGate), TakeGate(pid, false), First(leases, AtDomain(false)));
  }

  lemma PassesDomain(w: World, s: Population, pid: Pid, leases: seq<Want>, f: File)
    requires pid !in s && leases != [] && Reachable(w, s[pid := First(leases, AtDomain(false))])
    requires w.gateOf(DomainOf(w, leases[0])) != DomainOf(w, leases[0]) && w.leads(leases[0].root, f)
    requires Free(w, s, Directory(DomainOf(w, leases[0])), leases[0].exclusive)
    ensures Reachable(w, s[pid := First(leases, AtData(f))])
  {
    GrantedIfFree(w, s, pid, First(leases, AtDomain(false)));
    Advances(w, s, pid, First(leases, AtDomain(false)), TakeDomain(pid, f), First(leases, AtData(f)));
  }

  lemma PassesData(w: World, s: Population, pid: Pid, leases: seq<Want>, f: File)
    requires pid !in s && leases != [] && Reachable(w, s[pid := First(leases, AtData(f))])
    requires Free(w, s, LeaseFile(f), leases[0].exclusive)
    ensures Reachable(w, s[pid := Process(leases, [f], AtGate)])
  {
    GrantedIfFree(w, s, pid, First(leases, AtData(f)));
    Advances(w, s, pid, First(leases, AtData(f)), TakeData(pid), Process(leases, [f], AtGate));
  }

  /** Everything that a lease of `root` takes is free. */
  ghost predicate AllFree(w: World, s: Population, root: Text, exclusive: bool, f: File) {
    && Free(w, s, Directory(w.gateOf(w.domainOf(root))), true)
    && Free(w, s, Directory(w.domainOf(root)), exclusive)
    && Free(w, s, LeaseFile(f), exclusive)
  }

  lemma TakesFirst(w: World, s: Population, pid: Pid, leases: seq<Want>, f: File)
    requires Laid(w) && pid !in s && leases != [] && leases[0].root in w.roots && w.leads(leases[0].root, f)
    requires Reachable(w, s[pid := First(leases, AtGate)])
    requires AllFree(w, s, leases[0].root, leases[0].exclusive, f)
    ensures Reachable(w, s[pid := Process(leases, [f], AtGate)])
  {
    PassesGate(w, s, pid, leases);
    PassesDomain(w, s, pid, leases, f);
    PassesData(w, s, pid, leases, f);
  }

  // ---- readers and writers ------------------------------------------------------------

  lemma TouchesOfPair(w: World, r: Text, s: Text)
    requires w.domainOf(r) != w.domainOf(s)
    ensures Touches(w, [], [r, s]) == [Want(r, false), Want(s, false)]
  {
    assert [r, s][..1] == [r] && [r][..0] == [];
    assert Touches(w, [], [r]) == [Want(r, false)];
  }

  /** A reader that holds its first root and waits at the turnstile of the second. */
  function Reader(r: Text, s: Text, f: File): Process { Process([Want(r, false), Want(s, false)], [f], AtGate) }

  lemma ReaderHoldsFirst(w: World, s: Population, pid: Pid, r: Text, r': Text, f: File)
    requires Laid(w) && Reachable(w, s) && pid !in s && r in w.roots && r' in w.roots && Less(r, r')
    requires w.domainOf(r) != w.domainOf(r') && w.leads(r, f) && AllFree(w, s, r, false, f)
    ensures Reachable(w, s[pid := Reader(r, r', f)])
  {
    TouchesOfPair(w, r, r');
    assert SortedRoots(w, [r, r']);
    Asks(w, s, pid, Readers([r, r']));
    TakesFirst(w, s, pid, [Want(r, false), Want(r', false)], f);
  }

  lemma PublisherAsksAlone(w: World, s: Population, pid: Pid, r: Text)
    requires Reachable(w, s) && Ok(s) && pid !in s && r in w.roots
    ensures Reachable(w, s[pid := First([Want(r, true)], AtGate)])
  {
    assert Asked(w, [], Publisher(r)) == [Want(r, true)];
    Asks(w, s, pid, Publisher(r));
  }

  /** A writer that keeps the turnstile and waits for its domain. */
  function Writer(r: Text): Process { First([Want(r, true)], AtDomain(false)) }

  lemma WriterHoldsGate(w: World, s: Population, pid: Pid, r: Text)
    requires Reachable(w, s) && pid !in s && r in w.roots
    requires Free(w, s, Directory(w.gateOf(w.domainOf(r))), true)
    ensures Reachable(w, s[pid := Writer(r)])
  {
    PublisherAsksAlone(w, s, pid, r);
    PassesGate(w, s, pid, [Want(r, true)]);
  }

  // ---- circles ------------------------------------------------------------------------

  lemma PairIsCircle(w: World, s: Population, p: Pid, q: Pid)
    requires Ok(s) && p in s && q in s && WaitsFor(w, s[p], s[q]) && WaitsFor(w, s[q], s[p])
    ensures Circle(w, s, [p, q, p])
  {
  }

  /** Two domains below one turnstile: a reader of both holds the first and waits at the turnstile;
      a writer of the first holds the turnstile and waits for the reader. */
  lemma SharedGateDeadlocks(w: World, r: Text, s: Text)
    requires Laid(w) && r in w.roots && s in w.roots && Less(r, s)
    requires w.domainOf(r) != w.domainOf(s) && w.gateOf(w.domainOf(r)) == w.gateOf(w.domainOf(s))
    ensures Deadlocks(w)
  {
    var f :| w.leads(r, f);
    Empty(w);
    ReaderHoldsFirst(w, map[], 0, r, s, f);
    var s1: Population := map[][0 := Reader(r, s, f)];
    WriterHoldsGate(w, s1, 1, r);
    var s2 := s1[1 := Writer(r)];
    assert Reader(r, s, f).leases[0] == Want(r, false);
    PairIsCircle(w, s2, 0, 1);
  }

  /** A domain that is the turnstile of another one, and sorted first: a reader of both waits for
      itself. */
  lemma OwnLockDeadlocks(w: World, r: Text, s: Text)
    requires Laid(w) && r in w.roots && s in w.roots && Less(r, s)
    requires w.domainOf(r) == w.gateOf(w.domainOf(s))
    ensures Deadlocks(w)
  {
    var f :| w.leads(r, f);
    Empty(w);
    ReaderHoldsFirst(w, map[], 0, r, s, f);
    var s1: Population := map[][0 := Reader(r, s, f)];
    assert Reader(r, s, f).leases[0] == Want(r, false);
    assert Circle(w, s1, [0, 0]);
  }

  /** ... and sorted last: the reader waits for the domain that a writer has locked as turnstile. */
  lemma GateIsDomainDeadlocks(w: World, r: Text, s: Text)
    requires Laid(w) && r in w.roots && s in w.roots && Less(s, r)
    requires w.domainOf(r) == w.gateOf(w.domainOf(s))
    ensures Deadlocks(w)
  {
    var f :| w.leads(s, f);
    Empty(w);
    ReaderHoldsFirst(w, map[], 0, s, r, f);
    var p := Reader(s, r, f);
    var s1: Population := map[][0 := p];
    assert p.leases[0] == Want(s, false);
    WriterHoldsGate(w, s1, 1, s);
    assert s1[1 := Writer(s)] == map[1 := Writer(s)][0 := p];
    ReaderPassesOn(w, s, r, f);
    PairIsCircle(w, map[1 := Writer(s)][0 := p.(stage := AtDomain(false))], 0, 1);
  }

  lemma ReaderPassesOn(w: World, s: Text, r: Text, f: File)
    requires Laid(w) && r in w.roots && s in w.roots && w.domainOf(r) == w.gateOf(w.domainOf(s))
    requires Reachable(w, map[1 := Writer(s)][0 := Reader(s, r, f)])
    ensures Reachable(w, map[1 := Writer(s)][0 := Reader(s, r, f).(stage := AtDomain(false))])
  {
    var p, q := Reader(s, r, f), Writer(s);
    assert Wanted(w, p) == Directory(w.gateOf(w.domainOf(r)));
    WriterLeavesGate(w, s, r);
    ReaderLeavesGate(w, s, r, f, r);
    GrantedIfFree(w, map[1 := q], 0, p);
    Advances(w, map[1 := q], 0, p, TakeGate(0, false), p.(stage := AtDomain(false)));
  }

  /** Two readers each hold the domain that the other wants next. */
  function TwoReaders(r: Text, s: Text, f: File, s': Text, r': Text, g: File): Population {
    map[0 := Reader(r, s, f), 1 := Reader(s', r', g)]
  }

  lemma ReadersHoldBoth(w: World, r: Text, s: Text, f: File, s': Text, r': Text, g: File)
    requires Laid(w) && OwnGates(w) && r in w.roots && s in w.roots && s' in w.roots && r' in w.roots
    requires w.domainOf(r) == w.domainOf(r') != w.domainOf(s) == w.domainOf(s')
    requires Less(r, s) && Less(s', r') && w.leads(r, f) && w.leads(s', g)
    ensures Reachable(w, TwoReaders(r, s, f, s', r', g))
  {
    assert InUse(w, w.domainOf(r)) && InUse(w, w.domainOf(s));
    Empty(w);
    ReaderHoldsFirst(w, map[], 0, r, s, f);
    var s1: Population := map[][0 := Reader(r, s, f)];
    ReaderHoldsFirst(w, s1, 1, s', r', g);
    assert s1[1 := Reader(s', r', g)] == TwoReaders(r, s, f, s', r', g);
  }

  /** Two domains whose roots mix, whatever their turnstiles: two readers each hold the domain the
      other wants next, and a writer of either one keeps its turnstile while it waits. */
  lemma MixedFamiliesDeadlock(w: World, r: Text, s: Text, s': Text, r': Text)
    requires Laid(w) && OwnGates(w) && r in w.roots && s in w.roots && s' in w.roots && r' in w.roots
    requires w.domainOf(r) == w.domainOf(r') != w.domainOf(s) == w.domainOf(s')
    requires Less(r, s) && Less(s', r')
    ensures Deadlocks(w)
  {
    assert InUse(w, w.domainOf(r)) && InUse(w, w.domainOf(s));
    var f :| w.leads(r, f);
    var g :| w.leads(s', g);
    ReadersHoldBoth(w, r, s, f, s', r', g);
    WritersFollow(w, r, s, f, s', r', g);
    Knot(w, TwoReaders(r, s, f, s', r', g)[2 := Writer(r)][3 := Writer(s)], r, s, f, s', r', g);
  }

  lemma WritersFollow(w: World, r: Text, s: Text, f: File, s': Text, r': Text, g: File)
    requires Laid(w) && OwnGates(w) && r in w.roots && s in w.roots && s' in w.roots && r' in w.roots
    requires w.domainOf(r) == w.domainOf(r') != w.domainOf(s) == w.domainOf(s')
    requires Reachable(w, TwoReaders(r, s, f, s', r', g))
    ensures Reachable(w, TwoReaders(r, s, f, s', r', g)[2 := Writer(r)][3 := Writer(s)])
  {
    assert InUse(w, w.domainOf(r)) && InUse(w, w.domainOf(s));
    var p := TwoReaders(r, s, f, s', r', g);
    ReaderLeavesGate(w, r, s, f, r);
    ReaderLeavesGate(w, r, s, f, s);
    ReaderLeavesGate(w, s', r', g, r);
    ReaderLeavesGate(w, s', r', g, s);
    WriterHoldsGate(w, p, 2, r);
    WriterLeavesGate(w, r, s);
    WriterHoldsGate(w, p[2 := Writer(r)], 3, s);
  }

  /** A reader that stands before a turnstile holds none. */
  lemma ReaderLeavesGate(w: World, r: Text, s: Text, f: File, u: Text)
    requires w.gateOf(w.domainOf(u)) != w.domainOf(r)
    ensures !Holds(w, Reader(r, s, f), Directory(w.gateOf(w.domainOf(u))), false)
  {
  }

  lemma WriterLeavesGate(w: World, r: Text, u: Text)
    requires w.gateOf(w.domainOf(u)) != w.gateOf(w.domainOf(r))
    ensures !Holds(w, Writer(r), Directory(w.gateOf(w.domainOf(u))), false)
  {
  }

  lemma Knot(w: World, p: Population, r: Text, s: Text, f: File, s': Text, r': Text, g: File)
    requires w.domainOf(r) == w.domainOf(r') && w.domainOf(s) == w.domainOf(s')
    requires p == TwoReaders(r, s, f, s', r', g)[2 := Writer(r)][3 := Writer(s)]
    ensures Circle(w, p, [0, 3, 1, 2, 0])
  {
    assert p[0].leases[0] == Want(r, false) && p[1].leases[0] == Want(s', false);
    assert WaitsFor(w, p[0], p[3]) && WaitsFor(w, p[3], p[1]);
    assert WaitsFor(w, p[1], p[2]) && WaitsFor(w, p[2], p[0]);
  }

  /** A writer that has its domain and waits for the lock on the lease file. */
  function Stuck(s: Text, f: File): Process { First([Want(s, true)], AtData(f)) }

  lemma WriterIsStuck(w: World, p: Population, pid: Pid, s: Text, f: File)
    requires Laid(w) && Reachable(w, p) && pid !in p && s in w.roots && w.leads(s, f)
    requires Free(w, p, Directory(w.gateOf(w.domainOf(s))), true) && Free(w, p, Directory(w.domainOf(s)), true)
    ensures Reachable(w, p[pid := Stuck(s, f)])
  {
    PublisherAsksAlone(w, p, pid, s);
    PassesGate(w, p, pid, [Want(s, true)]);
    PassesDomain(w, p, pid, [Want(s, true)], f);
  }

  /** A lease file that is moved from one domain to another, turnstiles and roots being as apart as
      they may: a reader of both holds the file and waits at the second turnstile; a writer of the
      second domain has passed that turnstile and waits for the file. */
  lemma MovedFileDeadlocks(w: World, r: Text, s: Text, f: File)
    requires Laid(w) && OwnGates(w) && r in w.roots && s in w.roots && Less(r, s)
    requires w.domainOf(r) != w.domainOf(s) && w.leads(r, f) && w.leads(s, f)
    ensures Deadlocks(w)
  {
    assert InUse(w, w.domainOf(r)) && InUse(w, w.domainOf(s));
    Empty(w);
    ReaderHoldsFirst(w, map[], 0, r, s, f);
    var s1: Population := map[][0 := Reader(r, s, f)];
    assert Reader(r, s, f).leases[0] == Want(r, false);
    WriterIsStuck(w, s1, 1, s, f);
    PairIsCircle(w, s1[1 := Stuck(s, f)], 0, 1);
  }

  /** A publisher of `r` that holds everything, and one that in addition wants to read `s`. */
  function Active(r: Text, f: File): Process { Process([Want(r, true)], [f], AtGate) }

  function Nesting(r: Text, f: File, s: Text): Process { Process([Want(r, true), Want(s, false)], [f], AtGate) }

  lemma PublisherIsActive(w: World, p: Population, pid: Pid, r: Text, f: File)
    requires Laid(w) && Reachable(w, p) && pid !in p && r in w.roots && w.leads(r, f) && AllFree(w, p, r, true, f)
    ensures Reachable(w, p[pid := Active(r, f)])
  {
    PublisherAsksAlone(w, p, pid, r);
    TakesFirst(w, p, pid, [Want(r, true)], f);
  }

  lemma PublisherAsks(w: World, p: Population, pid: Pid, r: Text, f: File, s: Text)
    requires w.nests && pid !in p && Ok(p) && s in w.roots && w.domainOf(r) != w.domainOf(s)
    requires Reachable(w, p[pid := Active(r, f)])
    ensures Reachable(w, p[pid := Nesting(r, f, s)])
  {
    assert [s][..0] == [];
    assert Touches(w, [Want(r, true)], [s]) == [Want(r, true), Want(s, false)];
    Advances(w, p, pid, Active(r, f), Ask(pid, Readers([s])), Nesting(r, f, s));
  }

  lemma TwoPublishers(w: World, r: Text, f: File, s: Text, g: File)
    requires Laid(w) && OwnGates(w) && r in w.roots && s in w.roots && w.domainOf(r) != w.domainOf(s)
    requires w.leads(r, f) && w.leads(s, g) && f != g
    ensures Reachable(w, map[0 := Active(r, f), 1 := Active(s, g)])
  {
    assert InUse(w, w.domainOf(r)) && InUse(w, w.domainOf(s));
    Empty(w);
    PublisherIsActive(w, map[], 0, r, f);
    var s1: Population := map[][0 := Active(r, f)];
    PublisherIsActive(w, s1, 1, s, g);
    assert s1[1 := Active(s, g)] == map[0 := Active(r, f), 1 := Active(s, g)];
  }

  /** Two publishers that read an artifact of each other's domain before they commit. */
  lemma NestedReadsDeadlock(w: World, r: Text, s: Text)
    requires Laid(w) && OwnGates(w) && OwnFiles(w) && w.nests
    requires r in w.roots && s in w.roots && w.domainOf(r) != w.domainOf(s)
    ensures Deadlocks(w)
  {
    var f :| w.leads(r, f);
    var g :| w.leads(s, g);
    TwoPublishers(w, r, f, s, g);
    BothAsk(w, r, f, s, g);
    var p: Population := map[0 := Nesting(r, f, s), 1 := Nesting(s, g, r)];
    assert p[0].leases[0] == Want(r, true) && p[1].leases[0] == Want(s, true);
    PairIsCircle(w, p, 0, 1);
  }

  lemma BothAsk(w: World, r: Text, f: File, s: Text, g: File)
    requires w.nests && r in w.roots && s in w.roots && w.domainOf(r) != w.domainOf(s)
    requires Reachable(w, map[0 := Active(r, f), 1 := Active(s, g)])
    ensures Reachable(w, map[0 := Nesting(r, f, s), 1 := Nesting(s, g, r)])
  {
    assert map[0 := Active(r, f), 1 := Active(s, g)] == map[1 := Active(s, g)][0 := Active(r, f)];
    PublisherAsks(w, map[1 := Active(s, g)], 0, r, f, s);
    assert map[1 := Active(s, g)][0 := Nesting(r, f, s)] == map[0 := Nesting(r, f, s)][1 := Active(s, g)];
    PublisherAsks(w, map[0 := Nesting(r, f, s)], 1, s, g, r);
    assert map[0 := Nesting(r, f, s)][1 := Nesting(s, g, r)] == map[0 := Nesting(r, f, s), 1 := Nesting(s, g, r)];
  }

  // ---- exactly when -------------------------------------------------------------------

  lemma GatesSharedDeadlock(w: World)
    requires Laid(w) && !OwnGates(w)
    ensures Deadlocks(w)
  {
    var d, e :| InUse(w, d) && InUse(w, e) && d != e && (w.gateOf(d) == w.gateOf(e) || w.gateOf(d) == e);
    var r :| r in w.roots && w.domainOf(r) == d;
    var s :| s in w.roots && w.domainOf(s) == e;
    LessTotal(r, s);
    if w.gateOf(d) == e {
      if Less(r, s) {
        GateIsDomainDeadlocks(w, s, r);
      } else {
        OwnLockDeadlocks(w, s, r);
      }
    } else if Less(r, s) {
      SharedGateDeadlocks(w, r, s);
    } else {
      SharedGateDeadlocks(w, s, r);
    }
  }

  lemma MixingDeadlocks(w: World)
    requires Laid(w) && OwnGates(w) && !FamiliesApart(w)
    ensures Deadlocks(w)
  {
    var d, e :| d != e && Ahead(w, d, e) && Ahead(w, e, d);
    var r, s :| r in w.roots && s in w.roots && w.domainOf(r) == d && w.domainOf(s) == e && Less(r, s);
    var s', r' :| s' in w.roots && r' in w.roots && w.domainOf(s') == e && w.domainOf(r') == d && Less(s', r');
    MixedFamiliesDeadlock(w, r, s, s', r');
  }

  lemma MovingDeadlocks(w: World)
    requires Laid(w) && OwnGates(w) && !OwnFiles(w)
    ensures Deadlocks(w)
  {
    var r, s, f :| r in w.roots && s in w.roots && w.leads(r, f) && w.leads(s, f) && w.domainOf(r) != w.domainOf(s);
    LessTotal(r, s);
    if Less(r, s) {
      MovedFileDeadlocks(w, r, s, f);
    } else {
      MovedFileDeadlocks(w, s, r, f);
    }
  }

  lemma NestingDeadlocks(w: World)
    requires Laid(w) && OwnGates(w) && OwnFiles(w) && w.nests && !OneDomain(w)
    ensures Deadlocks(w)
  {
    var d, e :| InUse(w, d) && InUse(w, e) && d != e;
    var r :| r in w.roots && w.domainOf(r) == d;
    var s :| s in w.roots && w.domainOf(s) == e;
    NestedReadsDeadlock(w, r, s);
  }

  lemma DisorderDeadlocks(w: World)
    requires Laid(w) && !Orderly(w)
    ensures Deadlocks(w)
  {
    if !OwnGates(w) {
      GatesSharedDeadlock(w);
    } else if !FamiliesApart(w) {
      MixingDeadlocks(w);
    } else if !OwnFiles(w) {
      MovingDeadlocks(w);
    } else {
      NestingDeadlocks(w);
    }
  }

  /** No run of any number of readers and publishers comes to a circular wait exactly if the turnstile
      of no domain is another domain or its turnstile, the roots of no two domains mix, no lease file
      is found in two domains, and leases are taken inside others only where there is one domain. */
  lemma DeadlockFreeIff(w: World)
    requires Laid(w)
    ensures !Deadlocks(w) <==> Orderly(w)
  {
    if Orderly(w) {
      forall s: Population, c: seq<Pid> | Reachable(w, s) ensures !Circle(w, s, c) {
        NoCircle(w, s, c);
      }
    } else {
      DisorderDeadlocks(w);
    }
  }

  // ---- two sets of paths --------------------------------------------------------------

  /** A user's directory below a read-only one is a domain of its own, below the user's domain. */
  function NestedWorld(): World {
    World((r: Text) => if r == "/u/m/x/r" then "/u/m/x" else "/u",
          (d: Text) => if d == "/u" then "/" else "/u/m",
          (r: Text, f: File) => f == if r == "/u/a/r" then 0 else if r == "/u/z/r" then 1 else 2,
          iset{"/u/a/r", "/u/m/x/r", "/u/z/r"}, false)
  }

  lemma NestedWorldIsLaid()
    ensures Laid(NestedWorld())
  {
    var w := NestedWorld();
    assert Key("/u") == "/u/" && "/u/" <= "/u/a/r" && "/u/" <= "/u/z/r";
    assert Key("/u/m/x") == "/u/m/x/" && "/u/m/x/" <= "/u/m/x/r";
    assert w.leads("/u/a/r", 0) && w.leads("/u/z/r", 1) && w.leads("/u/m/x/r", 2);
  }

  lemma NestedWorldIsApart()
    ensures OwnGates(NestedWorld()) && OwnFiles(NestedWorld())
  {
  }

  lemma NestedWorldIsSorted()
    ensures Less("/u/a/r", "/u/m/x/r") && Less("/u/m/x/r", "/u/z/r")
  {
  }

  /** Distinct turnstiles do not help where one domain is above another. */
  lemma NestedDomainsDeadlock()
    ensures Laid(NestedWorld()) && OwnGates(NestedWorld()) && OwnFiles(NestedWorld()) && !NestedWorld().nests
    ensures Deadlocks(NestedWorld())
  {
    NestedWorldIsLaid();
    NestedWorldIsApart();
    NestedWorldIsSorted();
    MixedFamiliesDeadlock(NestedWorld(), "/u/a/r", "/u/m/x/r", "/u/m/x/r", "/u/z/r");
  }

  /** Two unrelated domains below read-only directories; the lease file of the first root may be
      moved, with its directory, to the second. */
  function MovedWorld(): World {
    World((r: Text) => if r == "/a/u/p/r" then "/a/u" else "/b/u",
          (d: Text) => if d == "/a/u" then "/a" else "/b",
          (r: Text, f: File) => f == 0,
          iset{"/a/u/p/r", "/b/u/q/r"}, false)
  }

  lemma MovedWorldIsLaid()
    ensures Laid(MovedWorld()) && Unnested(MovedWorld())
  {
    var w := MovedWorld();
    assert Key("/a/u") == "/a/u/" && "/a/u/" <= "/a/u/p/r";
    assert Key("/b/u") == "/b/u/" && "/b/u/" <= "/b/u/q/r";
    assert "/a/u/"[1] != "/b/u/"[1];
    assert w.leads("/a/u/p/r", 0) && w.leads("/b/u/q/r", 0);
  }

  lemma MovedWorldIsSorted()
    ensures Less("/a/u/p/r", "/b/u/q/r") && OwnGates(MovedWorld())
  {
  }

  /** Distinct turnstiles and unnested domains do not help where a lease file is moved. */
  lemma MovedWorldDeadlocks()
    ensures Laid(MovedWorld()) && OwnGates(MovedWorld()) && Unnested(MovedWorld()) && !MovedWorld().nests
    ensures Deadlocks(MovedWorld())
  {
    MovedWorldIsLaid();
    MovedWorldIsSorted();
    MovedFileDeadlocks(MovedWorld(), "/a/u/p/r", "/b/u/q/r", 0);
  }
}
