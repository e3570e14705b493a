/**
 Phase and conditions agree in every status that is ever stored, and between two stored
 statuses a condition's timestamp moves only if its status flips.
 */
module Coherence {
  import opened Prelude
  import opened Conditions
  import opened LabStore
  import opened LabSystem
  import C = ClusterLabController
  import I = InstanceLabController

  ghost predicate IsFalse(cs: seq<Condition>, kind: string)
  {
    Lookup(cs, kind).Some? && !Lookup(cs, kind).value.status
  }

  /**
   A ClusterLab is Running exactly when it is Ready, and then all its infrastructure is; Failed
   exactly when it is reported not to be; and it has no phase while nothing is reported.
   */
  ghost predicate LabCoherent(status: ClusterStatus)
  {
    && UniqueKinds(status.conditions)
    && (status.phase == Running || status.phase == Failed || status.phase == NoPhase)
    && (status.phase == Running <==> IsTrue(status.conditions, "Ready"))
    && (status.phase == Failed <==> IsFalse(status.conditions, "Ready"))
    && (status.phase == Running ==>
          && IsTrue(status.conditions, "NamespaceReady")
          && IsTrue(status.conditions, "QuotaReady")
          && IsTrue(status.conditions, "NetworkPolicyReady"))
  }

  /**
   A running InstanceLab is Ready and its Pod is; one that is created or has failed is reported not
   to be; one that waits for its parent says so, and leaves Ready alone.
   */
  ghost predicate InstCoherent(status: InstanceStatus)
  {
    && UniqueKinds(status.conditions)
    && (status.phase == Running ==> IsTrue(status.conditions, "Ready") && IsTrue(status.conditions, "PodReady"))
    && (status.phase == Creating || status.phase == Failed ==> IsFalse(status.conditions, "Ready"))
    && (status.phase == Pending ==> IsFalse(status.conditions, "WaitingForCluster"))
  }

  /** Conditions stay, and one that keeps its status keeps its timestamp. */
  ghost predicate Steady(was: seq<Condition>, now: seq<Condition>)
  {
    forall kind: string :: Lookup(was, kind).Some? ==>
      && Lookup(now, kind).Some?
      && (Lookup(now, kind).value.status == Lookup(was, kind).value.status ==>
            Lookup(now, kind).value.since == Lookup(was, kind).value.since)
  }

  /** One report to a list that is still as it was under that kind. */
  lemma SetSteady(was: seq<Condition>, now: seq<Condition>, c: Condition)
    requires Steady(was, now) && Lookup(now, c.kind) == Lookup(was, c.kind)
    ensures Steady(was, Set(now, c))
    ensures forall kind: string :: kind != c.kind ==> Lookup(Set(now, c), kind) == Lookup(now, kind)
    ensures Lookup(Set(now, c), c.kind).Some? && Lookup(Set(now, c), c.kind).value.status == c.status
  {
    forall kind: string
      ensures kind != c.kind ==> Lookup(Set(now, c), kind) == Lookup(now, kind)
      ensures kind == c.kind ==>
        Lookup(Set(now, c), kind) == match Lookup(now, kind)
                                     case None => Some(c)
                                     case Some(d) => Some(Merge(d, c))
    {
      SetLookup(now, c, kind);
    }
    hide Set, Lookup;
  }

  lemma RunningKeeps(mem: ClusterStatus, target: string, network: string, now: int)
    requires UniqueKinds(mem.conditions)
    ensures var status := C.RunningStatus(mem, target, network, now);
            LabCoherent(status) && Steady(mem.conditions, status.conditions)
  {
    var cs := mem.conditions;
    var r1 := Condition("NamespaceReady", true, "NamespaceReconciled", C.NamespaceMessage(target), now);
    var r2 := Condition("QuotaReady", true, "QuotaReconciled", "Resource limits successfully enforced", now);
    var r3 := Condition("NetworkPolicyReady", true, "PolicyReconciled", C.PolicyMessage(network), now);
    var r4 := Condition("Ready", true, "ClusterReady", "ClusterLab is fully provisioned and operational", now);
    var c1 := Set(cs, r1);
    var c2 := Set(c1, r2);
    var c3 := Set(c2, r3);
    DistinctKinds();
    hide Set, Lookup, UniqueKinds, Steady;
    SteadySelf(cs);
    SetSteady(cs, cs, r1);
    SetSteady(cs, c1, r2);
    SetSteady(cs, c2, r3);
    SetSteady(cs, c3, r4);
    SetKeepsUnique(cs, r1);
    SetKeepsUnique(c1, r2);
    SetKeepsUnique(c2, r3);
    SetKeepsUnique(c3, r4);
  }

  lemma SteadySelf(cs: seq<Condition>)
    ensures Steady(cs, cs)
  {
  }

  lemma DistinctKinds()
    ensures "NamespaceReady" != "QuotaReady" && "NamespaceReady" != "NetworkPolicyReady" && "NamespaceReady" != "Ready"
    ensures "QuotaReady" != "NetworkPolicyReady" && "QuotaReady" != "Ready" && "NetworkPolicyReady" != "Ready"
    ensures "PodReady" != "Ready" && "WaitingForCluster" != "Ready" && "WaitingForCluster" != "PodReady"
  {
    assert |"NamespaceReady"| == 14 && |"QuotaReady"| == 10 && |"NetworkPolicyReady"| == 18 && |"Ready"| == 5
        && |"PodReady"| == 8 && |"WaitingForCluster"| == 17;
  }

  lemma FailedKeeps(mem: ClusterStatus, reason: string, now: int)
    requires UniqueKinds(mem.conditions)
    ensures var status := C.FailedStatus(mem, reason, now);
            LabCoherent(status) && Steady(mem.conditions, status.conditions)
  {
    var r := Condition("Ready", false, reason, reason, now);
    SteadySelf(mem.conditions);
    hide Set, Lookup, UniqueKinds, Steady;
    SetSteady(mem.conditions, mem.conditions, r);
    SetKeepsUnique(mem.conditions, r);
  }

  lemma PendingKeeps(was: InstanceStatus, ref: string, now: int)
    requires InstCoherent(was)
    ensures var status := I.PendingStatus(was, ref, now);
            InstCoherent(status) && Steady(was.conditions, status.conditions)
  {
    var r := Condition("WaitingForCluster", false, "ParentNotReady", I.WaitingMessage(ref), now);
    SteadySelf(was.conditions);
    SetSteady(was.conditions, was.conditions, r);
    SetKeepsUnique(was.conditions, r);
  }

  lemma InstFailedKeeps(was: InstanceStatus, reason: string, now: int)
    requires InstCoherent(was)
    ensures var status := I.FailedStatus(was, reason, now);
            InstCoherent(status) && Steady(was.conditions, status.conditions)
  {
    var r := Condition("Ready", false, reason, reason, now);
    SteadySelf(was.conditions);
    SetSteady(was.conditions, was.conditions, r);
    SetKeepsUnique(was.conditions, r);
  }

  lemma ObservedKeeps(was: InstanceStatus, seen: PodPhase, now: int)
    requires InstCoherent(was)
    ensures var status := I.ObservedStatus(was, seen, now);
            InstCoherent(status) && Steady(was.conditions, status.conditions)
  {
    var cs := was.conditions;
    var pod := match seen
      case PodRunning => Condition("PodReady", true, "ContainerRunning", I.VM_RUNNING, now)
      case PodPending => Condition("PodReady", false, "PodPending", I.VM_PENDING, now)
      case PodFailed => Condition("PodReady", false, "PodFailed", I.VM_FAILED, now)
      case PodUnknown => Condition("PodReady", false, "", "", now);
    var ready := if seen.PodRunning? then Condition("Ready", true, "InstanceReady", I.INSTANCE_READY, now)
                 else Condition("Ready", false, "InstanceProvisioning", I.INSTANCE_PROVISIONING, now);
    var c1 := if seen.PodUnknown? then cs else Set(cs, pod);
    DistinctKinds();
    SteadySelf(cs);
    hide Set, Lookup, UniqueKinds, Steady;
    SetSteady(cs, cs, pod);
    SetKeepsUnique(cs, pod);
    SetSteady(cs, c1, ready);
    SetKeepsUnique(c1, ready);
  }

  /** What phase and conditions say of the Pod that was seen; an unknown phase leaves PodReady alone. */
  lemma ObservedTells(was: InstanceStatus, seen: PodPhase, now: int)
    ensures var status := I.ObservedStatus(was, seen, now);
            && (status.phase == Running <==> seen.PodRunning?)
            && (status.phase == Failed <==> seen.PodFailed?)
            && (status.phase == Creating <==> seen.PodPending? || seen.PodUnknown?)
            && (IsTrue(status.conditions, "Ready") <==> seen.PodRunning?)
            && (if seen.PodUnknown? then Lookup(status.conditions, "PodReady") == Lookup(was.conditions, "PodReady")
                else IsTrue(status.conditions, "PodReady") <==> seen.PodRunning?)
  {
    var pod := match seen
      case PodRunning => Condition("PodReady", true, "ContainerRunning", I.VM_RUNNING, now)
      case PodPending => Condition("PodReady", false, "PodPending", I.VM_PENDING, now)
      case PodFailed => Condition("PodReady", false, "PodFailed", I.VM_FAILED, now)
      case PodUnknown => Condition("PodReady", false, "", "", now);
    var ready := if seen.PodRunning? then Condition("Ready", true, "InstanceReady", I.INSTANCE_READY, now)
                 else Condition("Ready", false, "InstanceProvisioning", I.INSTANCE_PROVISIONING, now);
    var c1 := if seen.PodUnknown? then was.conditions else Set(was.conditions, pod);
    DistinctKinds();
    hide Set, Lookup;
    SetLookup(was.conditions, pod, "PodReady");
    SetLookup(c1, ready, "PodReady");
    SetLookup(c1, ready, "Ready");
  }

  // ----- the machine --------------------------------------------------------------

  ghost predicate LabPassOk(p: C.Pass)
  {
    && (!p.Get? ==> LabCoherent(p.lab.status))
    && (p.WriteStatus? || p.WriteFailed? ==> LabCoherent(p.mem) && Steady(p.lab.status.conditions, p.mem.conditions))
    && (C.Provisions(p) && !p.WriteStatus? && !p.WriteFailed? ==> p.mem.conditions == p.lab.status.conditions)
  }

  ghost predicate InstPassOk(p: I.Pass) { !p.Get? ==> InstCoherent(p.inst.status) }

  ghost predicate Coherent(s: System)
  {
    && (forall k :: k in s.st.labs ==> LabCoherent(s.st.labs[k].status))
    && (forall i :: i in s.st.insts ==> InstCoherent(s.st.insts[i].status))
    && (forall k :: k in s.cp ==> LabPassOk(s.cp[k]))
    && (forall i :: i in s.ip ==> InstPassOk(s.ip[i]))
  }

  /** A write of a coherent status that follows steadily on the stored one. */
  ghost predicate Proper(s: Store, w: Write)
  {
    && (w.PutLab? ==>
          && LabCoherent(w.lab.status)
          && (w.k in s.labs ==> Steady(s.labs[w.k].status.conditions, w.lab.status.conditions)))
    && (w.PutInst? ==>
          && InstCoherent(w.inst.status)
          && (w.i in s.insts ==> Steady(s.insts[w.i].status.conditions, w.inst.status.conditions)))
  }

  lemma OutsideProper(s: Store, a: Action)
    requires forall k :: k in s.labs ==> LabCoherent(s.labs[k].status)
    requires forall i :: i in s.insts ==> InstCoherent(s.insts[i].status)
    ensures Proper(s, OutsideWrite(s, a))
  {
    forall cs ensures Steady(cs, cs) { SteadySelf(cs); }
    hide Steady;
  }

  lemma ClusterProper(s: Store, k: Key, p: C.Pass, fault: bool)
    requires LabPassOk(p) && (k in s.labs ==> LabCoherent(s.labs[k].status))
    ensures Proper(s, C.Call(s, k, p, fault).write)
  {
    forall cs ensures Steady(cs, cs) { SteadySelf(cs); }
    hide Steady, LabCoherent;
    match p {
      case AddFinalizer(_) =>
      case WriteStatus(_, _, _) =>
      case WriteFailed(_, _) =>
      case DeleteExpired(_) =>
      case RemoveFinalizer(_) =>
      case _ =>
    }
  }

  lemma FailOk(s: Store, lab: ClusterLab, mem: ClusterStatus, reason: string)
    requires LabCoherent(lab.status) && mem.conditions == lab.status.conditions
    ensures LabPassOk(C.Fail(s, lab, mem, reason).then_.pass)
  {
    FailedKeeps(mem, reason, s.now);
    hide Steady, C.FailedStatus;
  }

  lemma ListOk(s: Store, k: Key, p: C.Pass, fault: bool)
    requires p.ListInstances? && LabPassOk(p)
    ensures LabPassOk(C.Call(s, k, p, fault).then_.pass)
  {
    CountingSparesConditions(s, k, p.mem, fault);
    RunningKeeps(C.Counted(s, k, p.mem, fault), s.Target(k.name), p.lab.spec.network, s.now);
    hide C.RunningStatus, Steady, C.Counted, IsTrue;
  }

  lemma ClusterNextOk(s: Store, k: Key, p: C.Pass, fault: bool)
    requires LabPassOk(p) && (k in s.labs ==> LabCoherent(s.labs[k].status))
    ensures var t := C.Call(s, k, p, fault).then_; t.Next? ==> LabPassOk(t.pass)
  {
    if p.ListInstances? {
      ListOk(s, k, p, fault);
    } else {
      if p.ApplyNamespace? || p.ApplyQuota? || p.ApplyNetwork? {
        FailOk(s, p.lab, p.mem, "NamespaceError");
        FailOk(s, p.lab, p.mem, "QuotaError");
        FailOk(s, p.lab, p.mem, "NetworkPolicyError");
      }
      hide C.Fail, Steady, LabCoherent;
      match p {
        case Get =>
        case _ =>
      }
    }
  }

  lemma CountingSparesConditions(s: Store, k: Key, mem: ClusterStatus, fault: bool)
    ensures C.Counted(s, k, mem, fault).conditions == mem.conditions
  {
  }

  lemma InstProper(s: Store, i: Key, p: I.Pass, fault: bool)
    requires InstPassOk(p)
    ensures Proper(s, I.Call(s, i, p, fault).write)
    ensures var t := I.Call(s, i, p, fault).then_;
            (i in s.insts ==> InstCoherent(s.insts[i].status)) ==> t.Next? ==> InstPassOk(t.pass)
  {
    if !p.Get? {
      SteadySelf(p.inst.status.conditions);
      PendingKeeps(p.inst.status, p.inst.spec.ref, s.now);
      if p.WriteStatus? { ObservedKeeps(p.inst.status, p.seen, s.now); }
      if p.WriteFailed? { InstFailedKeeps(p.inst.status, p.reason, s.now); }
    }
    hide I.PendingStatus, I.ObservedStatus, I.FailedStatus, Steady, InstCoherent;
    match p {
      case Get =>
      case AddFinalizer(_) =>
      case RemoveFinalizer(_) =>
      case SetOwner(_, _) =>
      case WritePending(_) =>
      case WriteStatus(_, _) =>
      case WriteFailed(_, _) =>
      case _ =>
    }
  }

  lemma ProperKeeps(s: System, w: Write)
    requires Coherent(s) && Proper(s.st, w)
    ensures Coherent(s.(st := Perform(s.st, w)))
  {
    hide Steady, LabCoherent, InstCoherent, LabPassOk, InstPassOk;
  }

  lemma ProperFollows(s: Store, w: Write)
    requires Proper(s, w)
    ensures Follows(s, Perform(s, w))
  {
    forall cs ensures Steady(cs, cs) { SteadySelf(cs); }
    hide Steady, LabCoherent, InstCoherent;
  }

  /** Every object stored before and after follows steadily. */
  ghost predicate Follows(s: Store, t: Store)
  {
    && (forall k :: k in s.labs && k in t.labs ==>
          Steady(s.labs[k].status.conditions, t.labs[k].status.conditions))
    && (forall i :: i in s.insts && i in t.insts ==>
          Steady(s.insts[i].status.conditions, t.insts[i].status.conditions))
  }

  lemma FollowsSelf(s: Store, t: Store)
    requires t.labs == s.labs && t.insts == s.insts
    ensures Follows(s, t)
  {
    forall cs ensures Steady(cs, cs) { SteadySelf(cs); }
    hide Steady;
  }

  lemma DoKeepsCoherent(s: System, a: Action)
    requires Coherent(s)
    ensures Coherent(Do(s, a)) && Follows(s.st, Do(s, a).st)
  {
    hide C.Call, I.Call, Perform, Proper, LabPassOk, InstPassOk, LabCoherent, InstCoherent, SettleCluster, Follows;
    match a {
      case CallCluster(k, fault) =>
        if k in s.cp {
          var out := C.Call(s.st, k, s.cp[k], fault);
          ClusterProper(s.st, k, s.cp[k], fault);
          ClusterNextOk(s.st, k, s.cp[k], fault);
          ProperKeeps(s, out.write);
          ProperFollows(s.st, out.write);
          SettleQueue(s, k, out);
          FollowsOn(s.st, Perform(s.st, out.write), Do(s, a).st);
        } else {
          FollowsSelf(s.st, s.st);
        }
      case CallInst(i, fault) =>
        if i in s.ip {
          InstProper(s.st, i, s.ip[i], fault);
          ProperKeeps(s, I.Call(s.st, i, s.ip[i], fault).write);
          ProperFollows(s.st, I.Call(s.st, i, s.ip[i], fault).write);
        } else {
          FollowsSelf(s.st, s.st);
        }
      case StartInst(i) => FreshOk(); FollowsSelf(s.st, Do(s, a).st);
      case StartCluster(k) => FreshOk(); FollowsSelf(s.st, Do(s, a).st);
      case Tick(_) => FollowsSelf(s.st, Do(s, a).st);
      case Fire(_) => FollowsSelf(s.st, Do(s, a).st);
      case _ =>
        OutsideProper(s.st, a);
        ProperKeeps(s, OutsideWrite(s.st, a));
        ProperFollows(s.st, OutsideWrite(s.st, a));
    }
  }

  lemma FollowsOn(s: Store, t: Store, u: Store)
    requires Follows(s, t) && u.labs == t.labs && u.insts == t.insts
    ensures Follows(s, u)
  {
  }

  lemma FreshOk()
    ensures LabPassOk(C.Get) && InstPassOk(I.Get)
  {
  }

  lemma {:induction false} RunKeepsCoherent(s: System, acts: seq<Action>)
    requires Coherent(s)
    ensures Coherent(Run(s, acts))
    decreases |acts|
  {
    hide Do, Coherent;
    if acts != [] {
      DoKeepsCoherent(s, acts[0]);
      RunKeepsCoherent(Do(s, acts[0]), acts[1..]);
    }
  }

  /** Every status stored in any run is coherent. */
  lemma StoredStatusesCoherent(s: System, acts: seq<Action>)
    requires Initial(s)
    ensures var t := Run(s, acts).st;
            && (forall k :: k in t.labs ==> LabCoherent(t.labs[k].status))
            && (forall i :: i in t.insts ==> InstCoherent(t.insts[i].status))
  {
    assert Coherent(s);
    hide Run;
    RunKeepsCoherent(s, acts);
  }

  /** In any run, one more step moves a condition's timestamp only together with its status. */
  lemma TimestampsMoveOnFlips(s: System, acts: seq<Action>, a: Action)
    requires Initial(s)
    ensures Follows(Run(s, acts).st, Do(Run(s, acts), a).st)
  {
    assert Coherent(s);
    hide Run, Do;
    RunKeepsCoherent(s, acts);
    DoKeepsCoherent(Run(s, acts), a);
  }
}
