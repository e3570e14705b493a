/**
 InstanceLab cleanup: a workload in an active namespace belongs to a stored InstanceLab that
 still carries its finalizer. The bulk deletes ignore their result, and the target is
 derived from spec.ref, so this needs bulk deletes that go through and references that are
 not edited (`Orderly`); nothing is needed of the ClusterLabs, not even distinct targets.
 */
module Cleanup {
  import opened LabStore
  import opened LabSystem
  import opened NoResidue
  import C = ClusterLabController
  import I = InstanceLabController

  ghost predicate Orderly(s: System, a: Action)
  {
    && (a.EditInst? && a.i in s.st.insts ==> a.ispec.ref == s.st.insts[a.i].spec.ref)
    && (a.CallInst? && a.i in s.ip && s.ip[a.i].BulkDelete? ==> !a.fault)
  }

  /** The InstanceLab is stored with its finalizer and its parent's target is `n`. */
  ghost predicate Claims(s: Store, i: Key, n: string)
  {
    i in s.insts && s.insts[i].finalizer && s.Target(s.insts[i].spec.ref) == n
  }

  ghost predicate WorkloadClaimed(s: Store, n: string, w: Workload)
  {
    w.instance == w.placedBy.name && Claims(s, w.placedBy, n)
  }

  ghost predicate SpaceClaimed(s: Store, n: string, space: Namespace)
  {
    !space.terminating ==> forall o :: o in space.objects ==> WorkloadClaimed(s, n, space.objects[o])
  }

  /** No workload of `i` of the first `stage` kinds of the cleanup order is left in `n`. */
  ghost predicate Cleaned(s: Store, i: Key, n: string, stage: nat)
  {
    n in s.spaces && !s.spaces[n].terminating ==>
      forall o :: o in s.spaces[n].objects && s.spaces[n].objects[o].placedBy == i ==>
        forall j :: 0 <= j < stage && j < 4 ==> o.kind != I.CLEANUP_ORDER[j]
  }

  /** What an InstanceLab pass relies on. */
  ghost predicate PassClaims(s: Store, i: Key, p: I.Pass)
  {
    && (I.Cleans(p) || I.Provisions(p) ==>
          && Claims(s, i, s.Target(p.inst.spec.ref))
          && s.insts[i].spec.ref == p.inst.spec.ref
          && p.inst.finalizer)
    && (I.Cleans(p) ==> p.inst.deleting)
    && (p.SetOwner? ==> TargetRight(s, I.ParentKey(i, p.inst), p.parent.status))
    && (p.Place? ==> p.target == s.Target(p.inst.spec.ref))
    && (p.BulkDelete? ==> p.target == s.Target(p.inst.spec.ref) && Cleaned(s, i, p.target, p.stage))
    && (p.RemoveFinalizer? ==> Cleaned(s, i, s.Target(p.inst.spec.ref), 4))
  }

  ghost predicate SpacesClaimed(s: Store)
  {
    forall n :: n in s.spaces ==> SpaceClaimed(s, n, s.spaces[n])
  }

  ghost predicate PassesClaim(s: Store, ip: map<Key, I.Pass>)
  {
    forall i :: i in ip ==> PassClaims(s, i, ip[i])
  }

  ghost predicate Tidy(s: Store, ip: map<Key, I.Pass>)
  {
    SpacesClaimed(s) && PassesClaim(s, ip)
  }

  /** No workload of `i` is in an active namespace. */
  ghost predicate Unplaced(s: Store, i: Key)
  {
    forall n, o :: n in s.spaces && !s.spaces[n].terminating && o in s.spaces[n].objects ==>
      s.spaces[n].objects[o].placedBy != i
  }

  ghost predicate Working(ip: map<Key, I.Pass>, i: Key)
  {
    i in ip && (I.Cleans(ip[i]) || I.Provisions(ip[i]))
  }

  /** Writes that keep the cleanup invariant. */
  ghost predicate Orders(s: Store, ip: map<Key, I.Pass>, w: Write)
  {
    match w
    case PutInst(i, inst) =>
      if i in s.insts then inst.spec.ref == s.insts[i].spec.ref && (s.insts[i].finalizer ==> inst.finalizer)
      else true
    case DropInst(i) => Unplaced(s, i) && !Working(ip, i)
    case PutSpace(n, space) =>
      && SpaceClaimed(s, n, space)
      && (if n in s.spaces then s.spaces[n].terminating ==> space.terminating else space.objects == map[])
      && forall o :: o in space.objects && !space.terminating ==>
           || (n in s.spaces && o in s.spaces[n].objects
               && s.spaces[n].objects[o].placedBy == space.objects[o].placedBy)
           || (space.objects[o].placedBy in ip ==> !I.Cleans(ip[space.objects[o].placedBy]))
    case _ => true
  }

  lemma OrdersKeepsSpaces(s: Store, ip: map<Key, I.Pass>, w: Write)
    requires SpacesClaimed(s) && Orders(s, ip, w)
    ensures SpacesClaimed(Perform(s, w))
  {
  }

  lemma OrdersKeepsPass(s: Store, ip: map<Key, I.Pass>, w: Write, i: Key)
    requires Tidy(s, ip) && Orders(s, ip, w) && i in ip
    ensures PassClaims(Perform(s, w), i, ip[i])
  {
    assert PassClaims(s, i, ip[i]);
  }

  lemma WriteKeepsTidy(s: Store, ip: map<Key, I.Pass>, w: Write)
    requires Tidy(s, ip) && Orders(s, ip, w)
    ensures Tidy(Perform(s, w), ip)
  {
    OrdersKeepsSpaces(s, ip, w);
    forall i | i in ip ensures PassClaims(Perform(s, w), i, ip[i]) {
      OrdersKeepsPass(s, ip, w, i);
    }
  }

  lemma OutsideWriteOrders(s: System, a: Action)
    requires Tidy(s.st, s.ip) && Orderly(s, a)
    ensures Orders(s.st, s.ip, OutsideWrite(s.st, a))
  {
  }

  lemma ClusterWriteOrders(s: Store, ip: map<Key, I.Pass>, k: Key, p: C.Pass, fault: bool)
    requires Tidy(s, ip)
    ensures Orders(s, ip, C.Call(s, k, p, fault).write)
  {
  }

  /** After the fourth bulk delete nothing of the InstanceLab is left in any active namespace. */
  lemma CleanedMeansUnplaced(s: Store, i: Key, n: string)
    requires SpacesClaimed(s) && Claims(s, i, n) && Cleaned(s, i, n, 4)
    ensures Unplaced(s, i)
  {
    forall m, o | m in s.spaces && !s.spaces[m].terminating && o in s.spaces[m].objects
      ensures s.spaces[m].objects[o].placedBy != i
    {
      assert SpaceClaimed(s, m, s.spaces[m]);
      assert WorkloadClaimed(s, m, s.spaces[m].objects[o]);
      assert o.kind == I.CLEANUP_ORDER[0] || o.kind == I.CLEANUP_ORDER[1]
          || o.kind == I.CLEANUP_ORDER[2] || o.kind == I.CLEANUP_ORDER[3];
    }
  }

  lemma InstWriteOrders(s: Store, ip: map<Key, I.Pass>, i: Key, p: I.Pass, fault: bool)
    requires Tidy(s, ip) && PassClaims(s, i, p)
    requires if I.Call(s, i, p, fault).then_.Next? then i in ip && ip[i] == p else i !in ip
    ensures Orders(s, ip, I.Call(s, i, p, fault).write)
  {
    hide I.ObservedStatus, I.PendingStatus, I.FailedStatus, I.Dispatch, I.Gate;
    if p.RemoveFinalizer? {
      CleanedMeansUnplaced(s, i, s.Target(p.inst.spec.ref));
    }
  }

  lemma BulkDeleteCleans(s: Store, i: Key, n: string, stage: nat)
    requires SpacesClaimed(s) && stage < 4 && Cleaned(s, i, n, stage)
    ensures Cleaned(Perform(s, DeleteAllOf(s, n, I.CLEANUP_ORDER[stage], i.name)), i, n, stage + 1)
  {
    var st := Perform(s, DeleteAllOf(s, n, I.CLEANUP_ORDER[stage], i.name));
    if n in s.spaces && !s.spaces[n].terminating {
      forall o | o in st.spaces[n].objects && st.spaces[n].objects[o].placedBy == i
        ensures o.kind != I.CLEANUP_ORDER[stage]
      {
        assert WorkloadClaimed(s, n, s.spaces[n].objects[o]);
      }
    }
  }

  lemma GetPassClaims(s: Store, cp: map<Key, C.Pass>, i: Key, p: I.Pass, fault: bool)
    requires Inv(s, cp) && PassClaims(s, i, p) && !p.BulkDelete?
    ensures var out := I.Call(s, i, p, fault);
            out.then_.Next? ==> PassClaims(Perform(s, out.write), i, out.then_.pass)
  {
    hide I.ObservedStatus, I.PendingStatus, I.FailedStatus, I.Wanted, PhaseAt;
  }

  lemma InstPassClaims(s: Store, cp: map<Key, C.Pass>, i: Key, p: I.Pass, fault: bool)
    requires Inv(s, cp) && PassClaims(s, i, p) && SpacesClaimed(s)
    requires p.BulkDelete? ==> !fault
    ensures var out := I.Call(s, i, p, fault);
            out.then_.Next? ==> PassClaims(Perform(s, out.write), i, out.then_.pass)
  {
    if p.BulkDelete? {
      if p.stage < 4 { BulkDeleteCleans(s, i, p.target, p.stage); }
    } else {
      hide I.Call, Perform;
      GetPassClaims(s, cp, i, p, fault);
    }
  }

  lemma AdvanceKeepsTidy(s: Store, ip: map<Key, I.Pass>, i: Key, p: I.Pass)
    requires Tidy(s, ip) && PassClaims(s, i, p)
    ensures Tidy(s, ip[i := p])
  {
  }

  lemma EndKeepsTidy(s: Store, ip: map<Key, I.Pass>, i: Key)
    requires Tidy(s, ip)
    ensures Tidy(s, ip - {i})
  {
  }

  lemma QueueKeepsTidy(s: Store, st: Store, ip: map<Key, I.Pass>)
    requires Tidy(s, ip)
    requires st.names == s.names && st.insts == s.insts && st.spaces == s.spaces
    ensures Tidy(st, ip)
  {
    assert forall i, n :: Claims(s, i, n) == Claims(st, i, n);
    forall i | i in ip ensures PassClaims(st, i, ip[i]) {
      assert PassClaims(s, i, ip[i]);
    }
    assert forall n :: n in s.spaces ==> SpaceClaimed(s, n, s.spaces[n]) ==> SpaceClaimed(st, n, s.spaces[n]);
  }

  lemma InstKeepsTidy(s: System, i: Key, fault: bool)
    requires Inv(s.st, s.cp) && Tidy(s.st, s.ip) && i in s.ip
    requires s.ip[i].BulkDelete? ==> !fault
    ensures var t := SettleInst(s, i, I.Call(s.st, i, s.ip[i], fault)); Tidy(t.st, t.ip)
  {
    var out := I.Call(s.st, i, s.ip[i], fault);
    assert PassClaims(s.st, i, s.ip[i]);
    hide I.Call, Perform, Orders, PassClaims, Inv;
    if out.then_.Next? {
      InstWriteOrders(s.st, s.ip, i, s.ip[i], fault);
      WriteKeepsTidy(s.st, s.ip, out.write);
      InstPassClaims(s.st, s.cp, i, s.ip[i], fault);
      AdvanceKeepsTidy(Perform(s.st, out.write), s.ip, i, out.then_.pass);
    } else {
      EndKeepsTidy(s.st, s.ip, i);
      InstWriteOrders(s.st, s.ip - {i}, i, s.ip[i], fault);
      WriteKeepsTidy(s.st, s.ip - {i}, out.write);
    }
  }

  lemma ClusterKeepsTidy(s: System, k: Key, fault: bool)
    requires Tidy(s.st, s.ip) && k in s.cp
    ensures var t := SettleCluster(s, k, C.Call(s.st, k, s.cp[k], fault)); Tidy(t.st, t.ip)
  {
    hide C.Call, Perform, Orders, Tidy, SettleCluster;
    var out := C.Call(s.st, k, s.cp[k], fault);
    ClusterWriteOrders(s.st, s.ip, k, s.cp[k], fault);
    WriteKeepsTidy(s.st, s.ip, out.write);
    SettleQueue(s, k, out);
    QueueKeepsTidy(Perform(s.st, out.write), SettleCluster(s, k, out).st, s.ip);
  }

  lemma FreshPass(s: Store, i: Key)
    ensures PassClaims(s, i, I.Get)
  {
  }

  lemma DoKeepsTidy(s: System, a: Action)
    requires Inv(s.st, s.cp) && Tidy(s.st, s.ip) && Orderly(s, a)
    ensures var t := Do(s, a); Tidy(t.st, t.ip)
  {
    hide C.Call, I.Call, Perform, Orders, Tidy, Inv;
    match a {
      case CallCluster(k, fault) => if k in s.cp { ClusterKeepsTidy(s, k, fault); }
      case CallInst(i, fault) => if i in s.ip { InstKeepsTidy(s, i, fault); }
      case Tick(_) => QueueKeepsTidy(s.st, Do(s, a).st, s.ip);
      case Fire(_) => QueueKeepsTidy(s.st, Do(s, a).st, s.ip);
      case StartCluster(_) => QueueKeepsTidy(s.st, Do(s, a).st, s.ip);
      case StartInst(i) =>
        if i !in s.ip {
          FreshPass(s.st, i);
          AdvanceKeepsTidy(s.st, s.ip, i, I.Get);
        }
      case _ =>
        OutsideWriteOrders(s, a);
        WriteKeepsTidy(s.st, s.ip, OutsideWrite(s.st, a));
    }
  }

  ghost predicate OrderlyRun(s: System, acts: seq<Action>)
    decreases |acts|
  {
    acts != [] ==> Orderly(s, acts[0]) && OrderlyRun(Do(s, acts[0]), acts[1..])
  }

  lemma {:induction false} RunKeepsTidy(s: System, acts: seq<Action>)
    requires Inv(s.st, s.cp) && Tidy(s.st, s.ip) && OrderlyRun(s, acts)
    ensures var t := Run(s, acts); Tidy(t.st, t.ip)
    decreases |acts|
  {
    hide Do, Inv, Tidy, Orderly;
    if acts != [] {
      DoKeeps(s, acts[0]);
      DoKeepsTidy(s, acts[0]);
      RunKeepsTidy(Do(s, acts[0]), acts[1..]);
    }
  }

  /**
   Every workload in an active namespace carries the label of a stored InstanceLab that still
   has its finalizer and whose reference leads to that namespace: provisioning and cleanup
   work in the same place, and the finalizer goes last.
   */
  lemma NoOrphans(s: System, acts: seq<Action>, n: string, o: ObjectKey)
    requires Initial(s) && OrderlyRun(s, acts)
    requires n in Run(s, acts).st.spaces && o in Run(s, acts).st.spaces[n].objects
    requires !Run(s, acts).st.spaces[n].terminating
    ensures var t := Run(s, acts).st;
            var w := t.spaces[n].objects[o];
            && w.placedBy in t.insts && w.instance == w.placedBy.name
            && t.insts[w.placedBy].finalizer && t.Target(t.insts[w.placedBy].spec.ref) == n
  {
    hide Run, Do;
    assert Tidy(s.st, s.ip);
    RunKeepsTidy(s, acts);
    var t := Run(s, acts).st;
    assert SpaceClaimed(t, n, t.spaces[n]) && WorkloadClaimed(t, n, t.spaces[n].objects[o]);
  }
}
