/**
 The readiness gate: no workload lies in an active target namespace that lacks its quota or
 its network policy. The InstanceLab controller checks only the parent's phase, so this
 rests on what the ClusterLab controller keeps true of that phase, up to the moment at which
 the last call of a pass that read it is made.

 The one thing users must not do is create a ClusterLab whose target namespace is still
 that of a stored ClusterLab or still held by an InstanceLab pass (`FreshTarget`).
 */
module ReadinessGate {
  import opened LabStore
  import opened LabSystem
  import opened NoResidue
  import N = Naming
  import C = ClusterLabController
  import I = InstanceLabController

  /** The target namespace an InstanceLab pass works in or is about to work in. */
  ghost predicate Holds(s: Store, p: I.Pass, n: string)
  {
    (p.Place? && p.target == n)
    || (p.SetOwner? && p.parent.status.phase == Running && I.TargetOf(s, p.parent, p.inst.spec.ref) == n)
  }

  ghost predicate FreshTarget(s: System, a: Action)
  {
    a.CreateLab? && a.k !in s.st.labs ==>
      && (forall k :: k in s.st.labs ==> s.st.Target(k.name) != s.st.Target(a.k.name))
      && (forall i :: i in s.ip ==> !Holds(s.st, s.ip[i], s.st.Target(a.k.name)))
  }

  /**
   Under the operator's naming: no ClusterLab of the name is stored in any namespace of origin,
   nor one whose long name is shortened to the same target, and no pass holds the target.
   */
  lemma FreshMeans(s: System, k: Key, spec: ClusterSpec, labels: map<string, string>, hash: N.Hash)
    requires s.st.names == N.OperatorNames(hash) && k !in s.st.labs
    ensures FreshTarget(s, CreateLab(k, spec, labels)) <==>
            && (forall l :: l in s.st.labs ==> !N.TargetsMeet(hash, l.name, k.name))
            && (forall i :: i in s.ip ==> !Holds(s.st, s.ip[i], N.TargetNamespace(hash, k.name)))
  {
    hide N.TargetsMeet, N.TargetNamespace, Holds;
    forall l | l in s.st.labs
      ensures s.st.Target(l.name) == s.st.Target(k.name) <==> N.TargetsMeet(hash, l.name, k.name)
    {
      N.TargetCollides(hash, l.name, k.name);
    }
  }

  ghost predicate Equipped(space: Namespace) { space.hard.Some? && space.policy.Some? }

  /** The ClusterLab is being deleted and no pass that provisions for it is left. */
  ghost predicate Quiet(s: Store, cp: map<Key, C.Pass>, k: Key)
  {
    k in s.labs && s.labs[k].deleting && (k in cp ==> !C.Provisions(cp[k]))
  }

  /** Nothing can be placed in `n` without quota and policy, now or before its ClusterLab is gone. */
  ghost predicate Sealed(s: Store, cp: map<Key, C.Pass>, n: string)
  {
    if n in s.spaces then s.spaces[n].terminating || Equipped(s.spaces[n])
    else forall k :: k in s.labs && s.Target(k.name) == n ==> Quiet(s, cp, k)
  }

  ghost predicate SpaceRight(s: Store, cp: map<Key, C.Pass>, space: Namespace)
  {
    && (space.terminating ==> Quiet(s, cp, space.home))
    && (!space.terminating && space.objects != map[] ==> Equipped(space))
  }

  /** What a ClusterLab pass has achieved so far. */
  ghost predicate Achieved(s: Store, k: Key, p: C.Pass)
  {
    var n := s.Target(k.name);
    && (C.Provisions(p) && n in s.spaces ==> !s.spaces[n].terminating)
    && (p.ApplyQuota? || p.ApplyNetwork? || p.ListInstances? || p.WriteStatus? ==> n in s.spaces)
    && (p.ApplyNetwork? || p.ListInstances? || p.WriteStatus? ==> s.spaces[n].hard.Some?)
    && (p.ListInstances? || p.WriteStatus? ==> s.spaces[n].policy.Some?)
    && (p.WriteFailed? ==> p.mem.phase != Running)
    && (p.DeleteTarget? || p.CheckTarget? || p.RemoveFinalizer? ==> k in s.labs && s.labs[k].deleting)
  }

  ghost predicate Unique(s: Store)
  {
    forall k, l :: k in s.labs && l in s.labs && s.Target(k.name) == s.Target(l.name) ==> k == l
  }

  ghost predicate RunningSealed(s: Store, cp: map<Key, C.Pass>)
  {
    forall k :: k in s.labs && s.labs[k].status.phase == Running ==> Sealed(s, cp, s.Target(k.name))
  }

  ghost predicate SpacesRight(s: Store, cp: map<Key, C.Pass>)
  {
    forall n :: n in s.spaces ==> SpaceRight(s, cp, s.spaces[n])
  }

  ghost predicate PassesAchieved(s: Store, cp: map<Key, C.Pass>)
  {
    forall k :: k in cp ==> Achieved(s, k, cp[k])
  }

  ghost predicate HeldSealed(s: Store, cp: map<Key, C.Pass>, ip: map<Key, I.Pass>)
  {
    forall i, n :: i in ip && Holds(s, ip[i], n) ==> Sealed(s, cp, n)
  }

  ghost predicate Gated(s: Store, cp: map<Key, C.Pass>, ip: map<Key, I.Pass>)
  {
    && Unique(s)
    && RunningSealed(s, cp)
    && SpacesRight(s, cp)
    && PassesAchieved(s, cp)
    && HeldSealed(s, cp, ip)
  }

  ghost predicate Homes(s: Store)
  {
    forall n :: n in s.spaces ==> Houses(s, s.spaces[n].home, n)
  }

  // ----- writes ---------------------------------------------------------------

  /** Writes that keep the gate. */
  ghost predicate Fits(s: Store, cp: map<Key, C.Pass>, ip: map<Key, I.Pass>, w: Write)
  {
    match w
    case PutLab(k, lab) =>
      && (k in s.labs && s.labs[k].deleting ==> lab.deleting)
      && (lab.status.phase == Running ==> k in s.labs && Sealed(s, cp, s.Target(k.name)))
      && (k !in s.labs ==>
            && (forall l :: l in s.labs ==> s.Target(l.name) != s.Target(k.name))
            && (forall i :: i in ip ==> !Holds(s, ip[i], s.Target(k.name))))
    case DropLab(k) => Homeless(s, k) && (k in cp ==> !C.Guarded(cp[k]))
    case PutSpace(n, space) =>
      && SpaceRight(s, cp, space)
      && Houses(s, space.home, n)
      && if n in s.spaces then
           && (s.spaces[n].terminating ==> space.terminating)
           && (s.spaces[n].hard.Some? ==> space.hard.Some?)
           && (s.spaces[n].policy.Some? ==> space.policy.Some?)
         else !Quiet(s, cp, space.home) && !space.terminating
    case DropSpace(n) => n in s.spaces && s.spaces[n].terminating
    case _ => true
  }

  /** One write at a time: a namespace stays sealed. */
  lemma StaysSealed(s: Store, cp: map<Key, C.Pass>, ip: map<Key, I.Pass>, w: Write, n: string)
    requires Homes(s) && Unique(s) && SpacesRight(s, cp) && Fits(s, cp, ip, w)
    requires Sealed(s, cp, n)
    requires w.PutLab? && w.k !in s.labs ==> s.Target(w.k.name) != n
    ensures Sealed(Perform(s, w), cp, n)
  {
  }

  lemma KeepsUnique(s: Store, cp: map<Key, C.Pass>, ip: map<Key, I.Pass>, w: Write)
    requires Unique(s) && Fits(s, cp, ip, w)
    ensures Unique(Perform(s, w))
  {
  }

  lemma KeepsSpaces(s: Store, cp: map<Key, C.Pass>, ip: map<Key, I.Pass>, w: Write)
    requires Homes(s) && SpacesRight(s, cp) && Fits(s, cp, ip, w)
    ensures SpacesRight(Perform(s, w), cp)
  {
  }

  lemma KeepsPass(s: Store, cp: map<Key, C.Pass>, ip: map<Key, I.Pass>, w: Write, k: Key)
    requires Inv(s, cp) && Gated(s, cp, ip) && Fits(s, cp, ip, w) && k in cp
    ensures Achieved(Perform(s, w), k, cp[k])
  {
    hide Inv, Gated, RunningSealed, Sealed;
    PassParts(s, cp, ip, k);
  }

  lemma PassParts(s: Store, cp: map<Key, C.Pass>, ip: map<Key, I.Pass>, k: Key)
    requires Inv(s, cp) && Gated(s, cp, ip) && k in cp
    ensures PassSound(s, k, cp[k]) && Achieved(s, k, cp[k]) && Unique(s)
  {
  }

  lemma KeepsRunning(s: Store, cp: map<Key, C.Pass>, ip: map<Key, I.Pass>, w: Write)
    requires Inv(s, cp) && Gated(s, cp, ip) && Fits(s, cp, ip, w)
    ensures RunningSealed(Perform(s, w), cp)
  {
    var st := Perform(s, w);
    hide Sealed;
    forall k | k in st.labs && st.labs[k].status.phase == Running ensures Sealed(st, cp, st.Target(k.name)) {
      StaysSealed(s, cp, ip, w, s.Target(k.name));
    }
  }

  lemma KeepsHeld(s: Store, cp: map<Key, C.Pass>, ip: map<Key, I.Pass>, w: Write)
    requires Inv(s, cp) && Gated(s, cp, ip) && Fits(s, cp, ip, w)
    ensures HeldSealed(Perform(s, w), cp, ip)
  {
    var st := Perform(s, w);
    hide Sealed;
    forall i, n | i in ip && Holds(st, ip[i], n) ensures Sealed(st, cp, n) {
      assert Holds(s, ip[i], n);
      StaysSealed(s, cp, ip, w, n);
    }
  }

  lemma WriteKeepsGate(s: Store, cp: map<Key, C.Pass>, ip: map<Key, I.Pass>, w: Write)
    requires Inv(s, cp) && Gated(s, cp, ip) && Fits(s, cp, ip, w)
    ensures Gated(Perform(s, w), cp, ip)
  {
    KeepsUnique(s, cp, ip, w);
    KeepsSpaces(s, cp, ip, w);
    KeepsRunning(s, cp, ip, w);
    KeepsHeld(s, cp, ip, w);
    forall k | k in cp ensures Achieved(Perform(s, w), k, cp[k]) {
      KeepsPass(s, cp, ip, w, k);
    }
  }

  // ----- which writes are made ------------------------------------------------

  lemma LabActionFits(s: System, a: Action)
    requires a.CreateLab? || a.EditLab? || a.RemoveLab?
    requires Inv(s.st, s.cp) && Gated(s.st, s.cp, s.ip) && FreshTarget(s, a)
    ensures Fits(s.st, s.cp, s.ip, OutsideWrite(s.st, a))
  {
    hide SpacesRight, PassesAchieved, HeldSealed, Sealed;
  }

  lemma SpaceActionFits(s: System, a: Action)
    requires a.ChangePod? || a.RemoveWorkload? || a.FinishSpace?
    requires Inv(s.st, s.cp) && Gated(s.st, s.cp, s.ip)
    ensures Fits(s.st, s.cp, s.ip, OutsideWrite(s.st, a))
  {
    hide RunningSealed, PassesAchieved, HeldSealed, PassSound;
  }

  lemma OutsideWriteFits(s: System, a: Action)
    requires Inv(s.st, s.cp) && Gated(s.st, s.cp, s.ip) && FreshTarget(s, a)
    ensures Fits(s.st, s.cp, s.ip, OutsideWrite(s.st, a))
  {
    if a.CreateLab? || a.EditLab? || a.RemoveLab? {
      LabActionFits(s, a);
    } else if a.ChangePod? || a.RemoveWorkload? || a.FinishSpace? {
      SpaceActionFits(s, a);
    }
    hide Inv, Gated, FreshTarget;
  }

  lemma InstWriteFits(s: Store, cp: map<Key, C.Pass>, ip: map<Key, I.Pass>, i: Key, p: I.Pass, fault: bool)
    requires Inv(s, cp) && Gated(s, cp, ip)
    requires p.Place? ==> Sealed(s, cp, p.target)
    ensures Fits(s, cp, ip, I.Call(s, i, p, fault).write)
  {
  }

  // The four writes a ClusterLab pass makes before its last call.

  lemma DeleteFits(s: Store, cp: map<Key, C.Pass>, ip: map<Key, I.Pass>, k: Key)
    requires Inv(s, cp) && Gated(s, cp, ip) && k in cp && cp[k].DeleteTarget?
    ensures Fits(s, cp, ip, DeleteSpace(s, C.CleanupTarget(s, k, cp[k].lab)))
  {
    assert PassSound(s, k, cp[k]) && Achieved(s, k, cp[k]);
  }

  lemma NamespaceFits(s: Store, cp: map<Key, C.Pass>, ip: map<Key, I.Pass>, k: Key)
    requires Inv(s, cp) && Gated(s, cp, ip) && k in cp && cp[k].ApplyNamespace?
    ensures Fits(s, cp, ip, ApplySpace(s, k, s.Target(k.name), cp[k].lab.labels))
  {
    assert PassSound(s, k, cp[k]) && Achieved(s, k, cp[k]);
  }

  lemma HardFits(s: Store, cp: map<Key, C.Pass>, ip: map<Key, I.Pass>, n: string, q: QuotaSpec)
    requires Inv(s, cp) && Gated(s, cp, ip) && AcceptsHard(s, n)
    ensures Fits(s, cp, ip, ApplyHard(s, n, q))
  {
  }

  lemma PolicyFits(s: Store, cp: map<Key, C.Pass>, ip: map<Key, I.Pass>, n: string, network: string)
    requires Inv(s, cp) && Gated(s, cp, ip) && AcceptsPolicy(s, n)
    ensures Fits(s, cp, ip, ApplyPolicy(s, n, network))
  {
  }

  /** A call after which the pass goes on. */
  lemma ClusterWriteFits(s: Store, cp: map<Key, C.Pass>, ip: map<Key, I.Pass>, k: Key, fault: bool)
    requires Inv(s, cp) && Gated(s, cp, ip) && k in cp && C.Call(s, k, cp[k], fault).then_.Next?
    ensures Fits(s, cp, ip, C.Call(s, k, cp[k], fault).write)
  {
    var p := cp[k];
    var n := s.Target(k.name);
    if p.DeleteTarget? {
      DeleteFits(s, cp, ip, k);
    } else if p.ApplyNamespace? {
      NamespaceFits(s, cp, ip, k);
    } else if p.ApplyQuota? {
      if AcceptsHard(s, n) { HardFits(s, cp, ip, n, p.lab.spec.quota); }
    } else if p.ApplyNetwork? {
      if AcceptsPolicy(s, n) { PolicyFits(s, cp, ip, n, p.lab.spec.network); }
    } else {
      MiddleCallSilent(s, k, p, fault);
    }
  }

  lemma MiddleCallSilent(s: Store, k: Key, p: C.Pass, fault: bool)
    requires !p.DeleteTarget? && !p.ApplyNamespace? && !p.ApplyQuota? && !p.ApplyNetwork?
    requires C.Call(s, k, p, fault).then_.Next?
    ensures C.Call(s, k, p, fault).write == Nothing
  {
  }

  /** A call that ends the pass. */
  lemma ClusterLastFits(s: Store, cp: map<Key, C.Pass>, ip: map<Key, I.Pass>, k: Key, p: C.Pass, fault: bool)
    requires Inv(s, cp) && Gated(s, cp, ip) && k !in cp && PassSound(s, k, p) && Achieved(s, k, p)
    requires !C.Call(s, k, p, fault).then_.Next?
    ensures Fits(s, cp, ip, C.Call(s, k, p, fault).write)
  {
  }

  // ----- passes moving on -------------------------------------------------------

  lemma DispatchAchieves(s: Store, cp: map<Key, C.Pass>, k: Key)
    requires Homes(s) && Unique(s) && SpacesRight(s, cp) && k in s.labs
    ensures var t := C.Dispatch(s, k, s.labs[k]); t.Next? ==> Achieved(s, k, t.pass)
  {
  }

  lemma CallAchieves(s: Store, k: Key, p: C.Pass, fault: bool)
    requires PassSound(s, k, p) && Achieved(s, k, p) && !p.Get?
    ensures var out := C.Call(s, k, p, fault);
            out.then_.Next? ==> Achieved(Perform(s, out.write), k, out.then_.pass)
  {
    hide C.Dispatch, C.Opening, C.Counted, SpaceLabels, Hard, PolicyFor;
  }

  lemma ClusterAchieves(s: Store, cp: map<Key, C.Pass>, k: Key, p: C.Pass, fault: bool)
    requires PassSound(s, k, p) && Achieved(s, k, p) && Homes(s) && Unique(s) && SpacesRight(s, cp)
    ensures var out := C.Call(s, k, p, fault);
            out.then_.Next? ==> Achieved(Perform(s, out.write), k, out.then_.pass)
  {
    if p.Get? {
      hide C.Dispatch, Achieved;
      if k in s.labs { DispatchAchieves(s, cp, k); }
    } else {
      hide C.Call, Achieved;
      CallAchieves(s, k, p, fault);
    }
  }

  lemma StartsProvisioning(s: Store, cp: map<Key, C.Pass>, k: Key, fault: bool)
    requires k in cp
    ensures var out := C.Call(s, k, cp[k], fault);
            out.then_.Next? && C.Provisions(out.then_.pass) ==> !Quiet(Perform(s, out.write), cp, k)
  {
  }

  lemma AdvanceKeepsGate(s: Store, cp: map<Key, C.Pass>, ip: map<Key, I.Pass>, k: Key, p: C.Pass)
    requires Gated(s, cp, ip) && Achieved(s, k, p) && (C.Provisions(p) ==> !Quiet(s, cp, k))
    ensures Gated(s, cp[k := p], ip)
  {
    QuietMonotone(s, cp, cp[k := p], ip);
  }

  lemma EndKeepsGate(s: Store, cp: map<Key, C.Pass>, ip: map<Key, I.Pass>, k: Key)
    requires Gated(s, cp, ip)
    ensures Gated(s, cp - {k}, ip)
  {
    QuietMonotone(s, cp, cp - {k}, ip);
  }

  lemma QuietMonotone(s: Store, cp: map<Key, C.Pass>, cq: map<Key, C.Pass>, ip: map<Key, I.Pass>)
    requires Gated(s, cp, ip) && PassesAchieved(s, cq)
    requires forall k :: Quiet(s, cp, k) ==> Quiet(s, cq, k)
    ensures Gated(s, cq, ip)
  {
    hide Quiet;
    assert forall n :: Sealed(s, cp, n) ==> Sealed(s, cq, n);
    assert forall n :: n in s.spaces && SpaceRight(s, cp, s.spaces[n]) ==> SpaceRight(s, cq, s.spaces[n]);
  }

  lemma QueueKeepsGate(s: Store, st: Store, cp: map<Key, C.Pass>, ip: map<Key, I.Pass>)
    requires Gated(s, cp, ip)
    requires st.names == s.names && st.labs == s.labs && st.spaces == s.spaces
    ensures Gated(st, cp, ip)
  {
    assert forall k :: Quiet(s, cp, k) == Quiet(st, cp, k);
    assert forall n :: Sealed(s, cp, n) == Sealed(st, cp, n);
    forall k | k in cp ensures Achieved(st, k, cp[k]) {
      assert Achieved(s, k, cp[k]);
    }
    forall i, n | i in ip && Holds(st, ip[i], n) ensures Sealed(st, cp, n) {
      assert Holds(s, ip[i], n);
    }
  }

  lemma InstHolds(s: Store, cp: map<Key, C.Pass>, ip: map<Key, I.Pass>, i: Key, fault: bool, n: string)
    requires Inv(s, cp) && Gated(s, cp, ip) && i in ip
    requires var out := I.Call(s, i, ip[i], fault); out.then_.Next? && Holds(s, out.then_.pass, n)
    ensures Sealed(s, cp, n)
  {
    hide Sealed;
    if ip[i].GetParent? {
      var k := I.ParentKey(i, ip[i].inst);
      assert TargetRight(s, k, s.labs[k].status);
    } else {
      assert Holds(s, ip[i], n);
    }
  }

  lemma InstAdvanceKeepsGate(s: Store, cp: map<Key, C.Pass>, ip: map<Key, I.Pass>, i: Key, p: I.Pass)
    requires Gated(s, cp, ip)
    requires forall n :: Holds(s, p, n) ==> Sealed(s, cp, n)
    ensures Gated(s, cp, ip[i := p])
  {
  }

  // ----- every step, every run ----------------------------------------------------

  lemma ClusterKeepsGate(s: System, k: Key, fault: bool)
    requires Inv(s.st, s.cp) && Gated(s.st, s.cp, s.ip) && k in s.cp
    ensures var t := SettleCluster(s, k, C.Call(s.st, k, s.cp[k], fault)); Gated(t.st, t.cp, t.ip)
  {
    var p := s.cp[k];
    var out := C.Call(s.st, k, p, fault);
    var st := Perform(s.st, out.write);
    var t := SettleCluster(s, k, out);
    assert PassSound(s.st, k, p) && Achieved(s.st, k, p);
    hide C.Call, Perform, Fits, Gated, Inv, PassSound, Achieved, Quiet;
    if out.then_.Next? {
      ClusterWriteFits(s.st, s.cp, s.ip, k, fault);
      WriteKeepsGate(s.st, s.cp, s.ip, out.write);
      GatedParts(s.st, s.cp, s.ip);
      ClusterAchieves(s.st, s.cp, k, p, fault);
      StartsProvisioning(s.st, s.cp, k, fault);
      AdvanceKeepsGate(st, s.cp, s.ip, k, out.then_.pass);
    } else {
      EndKeepsGate(s.st, s.cp, s.ip, k);
      EndKeeps(s.st, s.cp, k);
      ClusterLastFits(s.st, s.cp - {k}, s.ip, k, p, fault);
      WriteKeepsGate(s.st, s.cp - {k}, s.ip, out.write);
    }
    SettleQueue(s, k, out);
    QueueKeepsGate(st, t.st, t.cp, t.ip);
  }

  lemma GatedParts(s: Store, cp: map<Key, C.Pass>, ip: map<Key, I.Pass>)
    requires Inv(s, cp) && Gated(s, cp, ip)
    ensures Homes(s) && Unique(s) && SpacesRight(s, cp)
  {
  }

  lemma InstKeepsGate(s: System, i: Key, fault: bool)
    requires Inv(s.st, s.cp) && Gated(s.st, s.cp, s.ip) && i in s.ip
    ensures var t := SettleInst(s, i, I.Call(s.st, i, s.ip[i], fault)); Gated(t.st, t.cp, t.ip)
  {
    var out := I.Call(s.st, i, s.ip[i], fault);
    var st := Perform(s.st, out.write);
    assert s.ip[i].Place? ==> Sealed(s.st, s.cp, s.ip[i].target) by {
      assert s.ip[i].Place? ==> Holds(s.st, s.ip[i], s.ip[i].target);
    }
    hide I.Call, Perform, Fits, Inv, Sealed;
    InstWriteFits(s.st, s.cp, s.ip, i, s.ip[i], fault);
    if out.then_.Next? {
      forall n | Holds(s.st, out.then_.pass, n) ensures Sealed(s.st, s.cp, n) {
        InstHolds(s.st, s.cp, s.ip, i, fault, n);
      }
      InstAdvanceKeepsGate(s.st, s.cp, s.ip, i, out.then_.pass);
      InstWriteFits(s.st, s.cp, s.ip[i := out.then_.pass], i, s.ip[i], fault);
      WriteKeepsGate(s.st, s.cp, s.ip[i := out.then_.pass], out.write);
    } else {
      InstEndKeepsGate(s.st, s.cp, s.ip, i);
      InstWriteFits(s.st, s.cp, s.ip - {i}, i, s.ip[i], fault);
      WriteKeepsGate(s.st, s.cp, s.ip - {i}, out.write);
    }
  }

  lemma InstEndKeepsGate(s: Store, cp: map<Key, C.Pass>, ip: map<Key, I.Pass>, i: Key)
    requires Gated(s, cp, ip)
    ensures Gated(s, cp, ip - {i})
  {
  }

  lemma DoKeepsGate(s: System, a: Action)
    requires Inv(s.st, s.cp) && Gated(s.st, s.cp, s.ip) && FreshTarget(s, a)
    ensures var t := Do(s, a); Gated(t.st, t.cp, t.ip)
  {
    hide C.Call, I.Call, Perform, Fits, Gated, Inv, Achieved, Quiet;
    match a {
      case CallCluster(k, fault) => if k in s.cp { ClusterKeepsGate(s, k, fault); }
      case CallInst(i, fault) => if i in s.ip { InstKeepsGate(s, i, fault); }
      case Tick(_) => QueueKeepsGate(s.st, Do(s, a).st, s.cp, s.ip);
      case Fire(_) => QueueKeepsGate(s.st, Do(s, a).st, s.cp, s.ip);
      case StartInst(i) => if i !in s.ip { InstAdvanceKeepsGate(s.st, s.cp, s.ip, i, I.Get); }
      case StartCluster(k) =>
        if k !in s.cp {
          FreshPass(s.st, k);
          AdvanceKeepsGate(s.st, s.cp, s.ip, k, C.Get);
          QueueKeepsGate(s.st, Do(s, a).st, s.cp[k := C.Get], s.ip);
        }
      case _ =>
        OutsideWriteFits(s, a);
        WriteKeepsGate(s.st, s.cp, s.ip, OutsideWrite(s.st, a));
    }
  }

  lemma FreshPass(s: Store, k: Key)
    ensures Achieved(s, k, C.Get)
  {
  }

  /** In no step of the run is a ClusterLab created whose target is in use. */
  ghost predicate FreshTargets(s: System, acts: seq<Action>)
    decreases |acts|
  {
    acts != [] ==> FreshTarget(s, acts[0]) && FreshTargets(Do(s, acts[0]), acts[1..])
  }

  lemma {:induction false} RunKeepsGate(s: System, acts: seq<Action>)
    requires Inv(s.st, s.cp) && Gated(s.st, s.cp, s.ip) && FreshTargets(s, acts)
    ensures var t := Run(s, acts); Inv(t.st, t.cp) && Gated(t.st, t.cp, t.ip)
    decreases |acts|
  {
    hide Do, Inv, Gated, FreshTarget;
    if acts != [] {
      DoKeeps(s, acts[0]);
      DoKeepsGate(s, acts[0]);
      RunKeepsGate(Do(s, acts[0]), acts[1..]);
    }
  }

  /** No workload in an active target namespace without its quota and its network policy. */
  lemma Gate(s: System, acts: seq<Action>, n: string)
    requires Initial(s) && FreshTargets(s, acts)
    requires n in Run(s, acts).st.spaces
    ensures var space := Run(s, acts).st.spaces[n];
            !space.terminating && space.objects != map[] ==> space.hard.Some? && space.policy.Some?
  {
    assert Gated(s.st, s.cp, s.ip);
    hide Run;
    RunKeepsGate(s, acts);
    assert SpaceRight(Run(s, acts).st, Run(s, acts).cp, Run(s, acts).st.spaces[n]);
  }

  /**
   A live ClusterLab in phase Running has its namespace, active and equipped; one under
   deletion never has an active namespace without quota and policy.
   */
  lemma RunningMeansReady(s: System, acts: seq<Action>, k: Key)
    requires Initial(s) && FreshTargets(s, acts)
    requires var t := Run(s, acts).st; k in t.labs && t.labs[k].status.phase == Running
    ensures var t := Run(s, acts).st;
            var n := t.Target(k.name);
            && (!t.labs[k].deleting ==>
                  n in t.spaces && !t.spaces[n].terminating && t.spaces[n].hard.Some? && t.spaces[n].policy.Some?)
            && (n in t.spaces && !t.spaces[n].terminating ==> t.spaces[n].hard.Some? && t.spaces[n].policy.Some?)
  {
    assert Gated(s.st, s.cp, s.ip);
    hide Run;
    RunKeepsGate(s, acts);
    var t := Run(s, acts);
    var n := t.st.Target(k.name);
    assert Sealed(t.st, t.cp, n);
    if n in t.st.spaces {
      assert SpaceRight(t.st, t.cp, t.st.spaces[n]) && Houses(t.st, t.st.spaces[n].home, n);
    }
  }
}
