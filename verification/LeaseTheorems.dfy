/** The guarantees of the lease protocol, for every reachable state and every run. */
module LeaseTheorems {
  import opened Wrappers
  import opened LeaseProtocol
  import opened LeaseSafety

  /** The lease has been marked active and not yet released. */
  predicate IsActive(l: Lease) { (l.at.Marked? || l.at.Active?) }

  predicate Reading(l: Lease) { IsActive(l) && !l.exclusive }

  predicate Others(t: Topology, s: State, p: Pid, q: Pid) {
    p in s.leases && q in s.leases && p != q && DomainOf(s.leases[p]) == DomainOf(s.leases[q])
  }

  // ---- exclusion --------------------------------------------------------------------

  /** While a writer is active nobody else in its domain is active, holds the domain in any
      mode, or stands inside the turnstile. */
  lemma WriterExcludesEverybody(t: Topology, s: State, w: Pid, q: Pid)
    requires Reachable(t, s) && Others(t, s, w, q) && Publishing(s.leases[w])
    ensures !IsActive(s.leases[q]) && s.leases[q].domain == Unlocked && !s.leases[q].gate
    ensures (s.leases[q].at.Created? || s.leases[q].at.Opened? || s.leases[q].at.Closing?)
  {
    ReachableInv(t, s);
    assert Apart(t, s.leases[w], s.leases[q]);
    assert LocalOk(s.disk, s.leases[w]) && LocalOk(s.disk, s.leases[q]);
  }

  /** While a reader stands in the gap the others of its domain are before the turnstile, or
      leaving. */
  lemma GapKeepsOthersOut(t: Topology, s: State, r: Pid, q: Pid)
    requires Inv(t, s) && Others(t, s, r, q) && s.leases[r].at == Gap
    ensures s.leases[r].gate && s.leases[r].domain == Unlocked
    ensures s.leases[q].domain == Unlocked && !s.leases[q].gate
    ensures s.leases[q].at.Created? || s.leases[q].at.Opened? || s.leases[q].at.Closing?
  {
    assert Apart(t, s.leases[r], s.leases[q]);
    assert LocalOk(s.disk, s.leases[r]) && LocalOk(s.disk, s.leases[q]);
  }

  /** A gate that somebody holds cannot be taken. */
  lemma GateIsTaken(t: Topology, s: State, r: Pid, q: Pid)
    requires Others(t, s, r, q) && s.leases[r].gate
    ensures !Enabled(t, s, Take(q, TakeGate))
  {
    assert Blocks(t, s.leases[r], t.gateInode(DomainOf(s.leases[q])), true);
    assert !Permits(t, s.leases[r], s.leases[q], TakeGate);
  }

  /** The downgrade drops the exclusive lock before it takes the shared one.  In between the
      reader holds nothing, yet nobody else in the domain holds a lock or can take one. */
  lemma GapIsSealed(t: Topology, s: State, r: Pid, q: Pid)
    requires Reachable(t, s) && Others(t, s, r, q) && s.leases[r].at == Gap
    ensures s.leases[r].domain == Unlocked
    ensures s.leases[q].domain == Unlocked && !s.leases[q].gate
    ensures !Enabled(t, s, Take(q, TakeGate)) && !Enabled(t, s, Take(q, TakeDomain)) && !Enabled(t, s, Take(q, RetakeShared))
  {
    ReachableInv(t, s);
    GapKeepsOthersOut(t, s, r, q);
    GateIsTaken(t, s, r, q);
  }

  /** Different domains are different directories. */
  ghost predicate DistinctDomains(t: Topology) {
    forall d: Domain, e: Domain :: d != e ==> t.domainInode(d) != t.domainInode(e)
  }

  /** No domain is the turnstile of a domain. */
  ghost predicate NoGateIsDomain(t: Topology) {
    forall d: Domain, e: Domain :: t.gateInode(e) != t.domainInode(d)
  }

  ghost predicate DistinctInodes(t: Topology) { DistinctDomains(t) && NoGateIsDomain(t) }

  /** So the shared lock is granted at once: a downgrade never waits. */
  lemma DowngradeNeverWaits(t: Topology, s: State, r: Pid)
    requires Reachable(t, s) && DistinctInodes(t)
    requires r in s.leases && s.leases[r].at == Gap
    ensures Enabled(t, s, Take(r, RetakeShared))
  {
    forall q | q in s.leases && q != r ensures Permits(t, s.leases[q], s.leases[r], RetakeShared) {
      if DomainOf(s.leases[q]) == DomainOf(s.leases[r]) {
        GapIsSealed(t, s, r, q);
      }
    }
  }

  // ---- one identity -----------------------------------------------------------------

  /** All active leases of an artifact agree on its two inodes, and the record names them. */
  lemma ActiveLeasesAgree(t: Topology, s: State, p: Pid, q: Pid)
    requires Reachable(t, s) && p in s.leases && q in s.leases
    requires IsActive(s.leases[p]) && IsActive(s.leases[q]) && s.leases[p].art == s.leases[q].art
    ensures s.leases[p].parent == s.leases[q].parent && s.leases[p].lease == s.leases[q].lease
    ensures RecordOf(s.disk, s.leases[p].art) == Identity(s.leases[p].parent, s.leases[p].lease)
  {
    ReachableInv(t, s);
    assert LocalOk(s.disk, s.leases[p]) && LocalOk(s.disk, s.leases[q]);
  }

  /** The record changes only by a lease of that artifact that holds gate and domain
      exclusively, when no other lease of the domain is active. */
  lemma RecordChangesUnderExclusion(t: Topology, s: State, a: Action, art: Artifact)
    requires Reachable(t, s) && Enabled(t, s, a)
    requires RecordOf(Effect(t, s, a).disk, art) != RecordOf(s.disk, art)
    ensures a.Take? && s.leases[a.pid].art == art
    ensures s.leases[a.pid].gate && s.leases[a.pid].domain == Exclusive
    ensures forall q | Others(t, s, a.pid, q) :: s.leases[q].domain == Unlocked && !IsActive(s.leases[q])
  {
    ReachableInv(t, s);
    var l := s.leases[a.pid];
    assert LocalOk(s.disk, l);
    RewritesOwnRecord(t, s.disk, l, a.step, art);
    forall q | Others(t, s, a.pid, q) ensures s.leases[q].domain == Unlocked && !IsActive(s.leases[q]) {
      assert Apart(t, l, s.leases[q]) && LocalOk(s.disk, s.leases[q]);
    }
  }

  /** A reader that finds the record empty (torn), or naming other inodes than it opened, takes
      the domain exclusively: when it gets it, no other lease of the domain holds it. */
  lemma ChangedIdentityDrains(t: Topology, s: State, r: Pid)
    requires Reachable(t, s) && Enabled(t, s, Take(r, TakeDomain)) && !s.leases[r].exclusive
    requires var l := s.leases[r]; RecordOf(s.disk, l.art) != Identity(l.parent, l.lease)
    ensures Effect(t, s, Take(r, TakeDomain)).leases[r].domain == Exclusive
    ensures forall q | Others(t, s, r, q) :: s.leases[q].domain == Unlocked && !IsActive(s.leases[q])
  {
    ReachableInv(t, s);
    var l := s.leases[r];
    assert LocalOk(s.disk, l);
    forall q | Others(t, s, r, q) ensures s.leases[q].domain == Unlocked && !IsActive(s.leases[q]) {
      assert LocalOk(s.disk, s.leases[q]) && Permits(t, s.leases[q], l, TakeDomain);
    }
  }

  /** A reader takes the domain exclusively exactly if the record does not name its two inodes. */
  lemma DrainsExactlyWhenChanged(t: Topology, s: State, r: Pid)
    requires Reachable(t, s) && Enabled(t, s, Take(r, TakeDomain)) && !s.leases[r].exclusive
    ensures var l, l' := s.leases[r], Effect(t, s, Take(r, TakeDomain)).leases[r];
            l'.domain == if RecordOf(s.disk, l.art) == Identity(l.parent, l.lease) then Shared else Exclusive
  {
    ReachableInv(t, s);
    assert LocalOk(s.disk, s.leases[r]);
  }

  // ---- what a lease has seen -------------------------------------------------------

  /** The state in which the path led to the tree that `p` has seen: it held its domain and data
      locks and had just checked its lease file. */
  predicate Sights(m: State, p: Pid, art: Artifact, seen: Option<Tree>) {
    && p in m.leases && m.leases[p].art == art && m.leases[p].at == DataChecked
    && m.leases[p].domain != Unlocked && m.leases[p].data != Unlocked
    && Resolve(m.disk, art) == seen
  }

  /** From the `i`th action on no lease has been created under the name `p`. */
  ghost predicate SameLeaseSince(actions: seq<Action>, i: nat, p: Pid) {
    forall k | i <= k < |actions| :: !(actions[k].Create? && actions[k].pid == p)
  }

  /** At some earlier state of the run the lease that is now `p` sighted the tree. */
  ghost predicate WasCurrent(t: Topology, s0: State, actions: seq<Action>, p: Pid, art: Artifact, seen: Option<Tree>) {
    exists i: nat, m: State ::
      i <= |actions| && Execution(t, s0, actions[..i], m) && Sights(m, p, art, seen) && SameLeaseSince(actions, i, p)
  }

  lemma {:induction false} LastStep(t: Topology, s0: State, actions: seq<Action>, s: State) returns (m: State)
    requires actions != [] && Execution(t, s0, actions, s)
    ensures Execution(t, s0, actions[..|actions| - 1], m)
    ensures Enabled(t, m, actions[|actions| - 1]) && s == Effect(t, m, actions[|actions| - 1])
    decreases |actions|
  {
    if |actions| == 1 {
      m := s0;
    } else {
      m := LastStep(t, Effect(t, s0, actions[0]), actions[1..], s);
      assert actions[..|actions| - 1][1..] == actions[1..][..|actions| - 2];
    }
  }

  lemma WasCurrentLater(t: Topology, s0: State, actions: seq<Action>, a: Action,
                        p: Pid, art: Artifact, seen: Option<Tree>)
    requires WasCurrent(t, s0, actions, p, art, seen) && !(a.Create? && a.pid == p)
    ensures WasCurrent(t, s0, actions + [a], p, art, seen)
  {
    var i: nat, m: State :|
      i <= |actions| && Execution(t, s0, actions[..i], m) && Sights(m, p, art, seen) && SameLeaseSince(actions, i, p);
    assert (actions + [a])[..i] == actions[..i];
  }

  predicate Sighted(l: Lease) { (l.at.Validated? || l.at.Marked? || l.at.Active?) }

  lemma StepSighting(t: Topology, d: Disk, l: Lease, step: Step)
    requires LocksOk(l) && CanStep(t, d, l, step) && Sighted(LeaseAfter(t, d, l, step))
    ensures LeaseAfter(t, d, l, step).art == l.art
    ensures if Sighted(l) then LeaseAfter(t, d, l, step).seen == l.seen
            else
              && l.at == DataChecked && l.domain != Unlocked && l.data != Unlocked
              && LeaseAfter(t, d, l, step).seen == Resolve(d, l.art)
  {
    if !Sighted(l) {
      assert step.ValidateParent? && l.at == DataChecked;
    } else {
      assert step.Mark? || Late(step) || step.PrepareAnchor?;
    }
  }

  /** Before a step after which `p` has sighted its tree it had sighted it, or sights it now. */
  lemma SightedBefore(t: Topology, m: State, a: Action, p: Pid)
    requires Inv(t, m) && Enabled(t, m, a) && p in Effect(t, m, a).leases && Sighted(Effect(t, m, a).leases[p])
    ensures !(a.Create? && a.pid == p)
    ensures var l' := Effect(t, m, a).leases[p];
            && p in m.leases && m.leases[p].art == l'.art
            && (if Sighted(m.leases[p]) then m.leases[p].seen == l'.seen else Sights(m, p, l'.art, l'.seen))
  {
    if a.Take? && a.pid == p {
      assert LocalOk(m.disk, m.leases[p]);
      StepSighting(t, m.disk, m.leases[p], a.step);
    }
  }

  /** A validated lease has seen the tree its path led to at an instant of its own acquisition,
      with all locks taken: after that instant no lease was created under its name. */
  lemma {:induction false} SeenWasCurrent(t: Topology, s0: State, actions: seq<Action>, s: State, p: Pid)
    requires Initial(s0) && Execution(t, s0, actions, s)
    requires p in s.leases && Sighted(s.leases[p])
    ensures WasCurrent(t, s0, actions, p, s.leases[p].art, s.leases[p].seen)
    decreases |actions|
  {
    var n := |actions| - 1;
    var m := LastStep(t, s0, actions, s);
    assert actions == actions[..n] + [actions[n]];
    RunKeepsInv(t, s0, actions[..n], m);
    SightedBefore(t, m, actions[n], p);
    if Sighted(m.leases[p]) {
      SeenWasCurrent(t, s0, actions[..n], m, p);
      WasCurrentLater(t, s0, actions[..n], actions[n], p, s.leases[p].art, s.leases[p].seen);
    } else {
      assert SameLeaseSince(actions, n, p);
    }
  }

  // ---- progress of a draining writer ------------------------------------------------

  /** Everybody else holding the domain `d`. */
  function Holders(t: Topology, s: State, w: Pid, d: Domain): set<Pid> {
    set q | q in s.leases && q != w && DomainOf(s.leases[q]) == d && s.leases[q].domain != Unlocked
  }

  /** The action does not make `w` give up its turnstile. */
  predicate KeepsTurnstile(w: Pid, a: Action) {
    && a != Crash(w) && a != Take(w, OpenGate) && a != Take(w, DropGate)
  }

  /** A lease acquires a domain lock only from inside the turnstile, and leaves the turnstile only
      by giving it up. */
  lemma StepHolding(t: Topology, d: Disk, l: Lease, step: Step)
    requires LocksOk(l) && CanStep(t, d, l, step)
    ensures var l' := LeaseAfter(t, d, l, step);
            && l'.art == l.art
            && (l'.domain != Unlocked ==> l.domain != Unlocked || l.gate)
            && (l.gate && !step.OpenGate? && !step.DropGate? ==> l'.gate)
  {
    if !MovesLocks(step) {
      StepKeepsHold(t, d, l, step);
    }
  }

  lemma StaysInTurnstile(t: Topology, s: State, a: Action, w: Pid)
    requires Inv(t, s) && Enabled(t, s, a) && KeepsTurnstile(w, a) && w in s.leases && s.leases[w].gate
    ensures var s' := Effect(t, s, a);
            w in s'.leases && s'.leases[w].gate && s'.leases[w].art == s.leases[w].art
  {
    if a.Take? && a.pid == w {
      assert LocalOk(s.disk, s.leases[w]);
      StepHolding(t, s.disk, s.leases[w], a.step);
    }
  }

  /** Whoever holds the domain after the step held it before. */
  lemma HeldBefore(t: Topology, s: State, a: Action, w: Pid, q: Pid)
    requires Inv(t, s) && Enabled(t, s, a) && w in s.leases && s.leases[w].gate && q != w
    requires var s' := Effect(t, s, a);
             q in s'.leases && DomainOf(s'.leases[q]) == DomainOf(s.leases[w]) && s'.leases[q].domain != Unlocked
    ensures q in s.leases && DomainOf(s.leases[q]) == DomainOf(s.leases[w]) && s.leases[q].domain != Unlocked
  {
    if a.Take? && a.pid == q {
      assert LocalOk(s.disk, s.leases[q]) && Apart(t, s.leases[w], s.leases[q]);
      StepHolding(t, s.disk, s.leases[q], a.step);
    }
  }

  lemma StepDrains(t: Topology, s: State, a: Action, w: Pid)
    requires Inv(t, s) && Enabled(t, s, a) && KeepsTurnstile(w, a)
    requires w in s.leases && s.leases[w].gate
    ensures var s' := Effect(t, s, a);
            && w in s'.leases && s'.leases[w].gate && s'.leases[w].art == s.leases[w].art
            && Holders(t, s', w, DomainOf(s.leases[w])) <= Holders(t, s, w, DomainOf(s.leases[w]))
  {
    StaysInTurnstile(t, s, a, w);
    var d := DomainOf(s.leases[w]);
    forall q | q in Holders(t, Effect(t, s, a), w, d) ensures q in Holders(t, s, w, d) {
      HeldBefore(t, s, a, w, q);
    }
  }

  /** From the moment a lease has the turnstile until it gives it up, the set of other holders
      of its domain never grows, whatever anybody does. */
  lemma {:induction false} HoldersNeverGrow(t: Topology, s: State, actions: seq<Action>, s': State, w: Pid)
    requires Inv(t, s) && Execution(t, s, actions, s')
    requires w in s.leases && s.leases[w].gate
    requires forall a | a in actions :: KeepsTurnstile(w, a)
    ensures w in s'.leases && s'.leases[w].gate
    ensures Holders(t, s', w, DomainOf(s.leases[w])) <= Holders(t, s, w, DomainOf(s.leases[w]))
    decreases |actions|
  {
    if actions != [] {
      StepDrains(t, s, actions[0], w);
      EveryStepKeepsInv(t, s, actions[0]);
      HoldersNeverGrow(t, Effect(t, s, actions[0]), actions[1..], s', w);
    }
  }

  /** ... and once it is empty an admitted writer is granted the domain: exactly then. */
  lemma GrantedExactlyWhenDrained(t: Topology, s: State, w: Pid)
    requires Reachable(t, s) && DistinctInodes(t)
    requires w in s.leases && s.leases[w].at == Admitted && s.leases[w].exclusive
    ensures Enabled(t, s, Take(w, TakeDomain)) <==> Holders(t, s, w, DomainOf(s.leases[w])) == {}
  {
    var d := DomainOf(s.leases[w]);
    if Holders(t, s, w, d) == {} {
      forall q | q in s.leases && q != w ensures Permits(t, s.leases[q], s.leases[w], TakeDomain) {
        assert q !in Holders(t, s, w, d);
      }
    } else {
      var q :| q in Holders(t, s, w, d);
      assert !Permits(t, s.leases[q], s.leases[w], TakeDomain);
    }
  }

  /** A reader is granted the domain exactly if what others hold is shared and the record names its
      inodes, or nobody else is left. */
  lemma ReaderGrantedExactly(t: Topology, s: State, r: Pid)
    requires Reachable(t, s) && DistinctInodes(t)
    requires r in s.leases && s.leases[r].at == Compared && !s.leases[r].exclusive
    ensures Enabled(t, s, Take(r, TakeDomain)) <==>
              forall q | q in Holders(t, s, r, DomainOf(s.leases[r])) ::
                s.leases[q].domain == Shared
                && RecordOf(s.disk, s.leases[r].art) == Identity(s.leases[r].parent, s.leases[r].lease)
  {
    ReachableInv(t, s);
    var l := s.leases[r];
    var d := DomainOf(l);
    assert LocalOk(s.disk, l);
    forall q | q in s.leases && q != r
      ensures Permits(t, s.leases[q], l, TakeDomain) <==>
                (q in Holders(t, s, r, d) ==> s.leases[q].domain == Shared && !l.changed)
    {
      assert DomainOf(s.leases[q]) != d ==> t.domainInode(DomainOf(s.leases[q])) != t.domainInode(d);
    }
  }
}
