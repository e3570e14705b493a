/**
 Isolation: everything in a target namespace was placed for the ClusterLab that created it,
 by InstanceLabs of the same origin namespace. So a ClusterLab that is gone leaves no
 workload behind, and cleaning up one InstanceLab touches no other, as long as its parent is
 stored. The bulk delete selects by the InstanceLab's bare name, hence the condition.
 */
module Isolation {
  import opened LabStore
  import opened LabSystem
  import opened NoResidue
  import opened ReadinessGate
  import C = ClusterLabController
  import I = InstanceLabController

  ghost predicate SpacePlaced(space: Namespace)
  {
    forall o :: o in space.objects ==>
      && space.objects[o].placedFor == space.home
      && space.objects[o].cluster == space.home.name
      && space.objects[o].placedBy.origin == space.home.origin
      && space.objects[o].instance == space.objects[o].placedBy.name
  }

  ghost predicate HeldAtHome(s: Store, ip: map<Key, I.Pass>)
  {
    forall i, n :: i in ip && Holds(s, ip[i], n) && n in s.spaces ==>
      s.spaces[n].home == I.ParentKey(i, ip[i].inst)
  }

  ghost predicate Isolated(s: Store, ip: map<Key, I.Pass>)
  {
    (forall n :: n in s.spaces ==> SpacePlaced(s.spaces[n])) && HeldAtHome(s, ip)
  }

  ghost predicate Isolates(s: Store, w: Write)
  {
    w.PutSpace? ==> SpacePlaced(w.space) && (w.n in s.spaces ==> w.space.home == s.spaces[w.n].home)
  }

  lemma WriteKeepsIsolated(s: Store, cp: map<Key, C.Pass>, ip: map<Key, I.Pass>, w: Write)
    requires Inv(s, cp) && Gated(s, cp, ip) && Fits(s, cp, ip, w) && Isolated(s, ip) && Isolates(s, w)
    ensures Isolated(Perform(s, w), ip)
  {
    hide Inv, RunningSealed, SpacesRight, PassesAchieved, Unique, SpaceRight;
    var st := Perform(s, w);
    forall i, n | i in ip && Holds(st, ip[i], n) && n in st.spaces
      ensures st.spaces[n].home == I.ParentKey(i, ip[i].inst)
    {
      assert Holds(s, ip[i], n) && Sealed(s, cp, n);
      assert w.PutSpace? && w.n == n ==> n in s.spaces;
    }
  }

  lemma InstWriteIsolates(s: Store, ip: map<Key, I.Pass>, i: Key, p: I.Pass, fault: bool)
    requires Isolated(s, ip)
    requires p.Place? && p.target in s.spaces ==> s.spaces[p.target].home == I.ParentKey(i, p.inst)
    ensures Isolates(s, I.Call(s, i, p, fault).write)
  {
  }

  lemma ClusterWriteIsolates(s: Store, ip: map<Key, I.Pass>, k: Key, p: C.Pass, fault: bool)
    requires Isolated(s, ip)
    ensures Isolates(s, C.Call(s, k, p, fault).write)
  {
  }

  lemma OutsideWriteIsolates(s: Store, ip: map<Key, I.Pass>, a: Action)
    requires Isolated(s, ip)
    ensures Isolates(s, OutsideWrite(s, a))
  {
  }

  lemma InstPassAtHome(s: Store, cp: map<Key, C.Pass>, ip: map<Key, I.Pass>, i: Key, fault: bool, n: string)
    requires Inv(s, cp) && Unique(s) && Isolated(s, ip) && i in ip
    requires var out := I.Call(s, i, ip[i], fault);
             out.then_.Next? && Holds(s, out.then_.pass, n) && n in s.spaces
    ensures s.spaces[n].home == I.ParentKey(i, I.Call(s, i, ip[i], fault).then_.pass.inst)
  {
    if ip[i].GetParent? {
      var k := I.ParentKey(i, ip[i].inst);
      assert TargetRight(s, k, s.labs[k].status);
      assert Houses(s, s.spaces[n].home, n);
    } else {
      assert Holds(s, ip[i], n);
    }
  }

  lemma InstKeepsIsolated(s: System, i: Key, fault: bool)
    requires Inv(s.st, s.cp) && Gated(s.st, s.cp, s.ip) && Isolated(s.st, s.ip) && i in s.ip
    ensures var t := SettleInst(s, i, I.Call(s.st, i, s.ip[i], fault)); Isolated(t.st, t.ip)
  {
    var out := I.Call(s.st, i, s.ip[i], fault);
    var t := SettleInst(s, i, out);
    assert s.ip[i].Place? ==> Sealed(s.st, s.cp, s.ip[i].target) by {
      assert s.ip[i].Place? ==> Holds(s.st, s.ip[i], s.ip[i].target);
    }
    assert Unique(s.st);
    assert Isolated(s.st, t.ip) by {
      hide I.Call;
      forall j, n | j in t.ip && Holds(s.st, t.ip[j], n) && n in s.st.spaces
        ensures s.st.spaces[n].home == I.ParentKey(j, t.ip[j].inst)
      {
        if j == i { InstPassAtHome(s.st, s.cp, s.ip, i, fault, n); } else { assert Holds(s.st, s.ip[j], n); }
      }
    }
    assert s.ip[i].Place? ==> Holds(s.st, s.ip[i], s.ip[i].target);
    InstWriteIsolates(s.st, s.ip, i, s.ip[i], fault);
    hide I.Call, Perform, Fits, Inv, Sealed, Isolates, Gated, Isolated;
    GateOverCall(s, i, fault);
    InstWriteFits(s.st, s.cp, t.ip, i, s.ip[i], fault);
    WriteKeepsIsolated(s.st, s.cp, t.ip, out.write);
  }

  /** The gate with the pass moved on and its write still to come. */
  lemma GateOverCall(s: System, i: Key, fault: bool)
    requires Inv(s.st, s.cp) && Gated(s.st, s.cp, s.ip) && i in s.ip
    ensures Gated(s.st, s.cp, SettleInst(s, i, I.Call(s.st, i, s.ip[i], fault)).ip)
  {
    hide I.Call, Inv, Sealed;
    var out := I.Call(s.st, i, s.ip[i], fault);
    if out.then_.Next? {
      forall n | Holds(s.st, out.then_.pass, n) ensures Sealed(s.st, s.cp, n) {
        InstHolds(s.st, s.cp, s.ip, i, fault, n);
      }
      InstAdvanceKeepsGate(s.st, s.cp, s.ip, i, out.then_.pass);
    } else {
      InstEndKeepsGate(s.st, s.cp, s.ip, i);
    }
  }

  lemma ClusterKeepsIsolated(s: System, k: Key, fault: bool)
    requires Inv(s.st, s.cp) && Gated(s.st, s.cp, s.ip) && Isolated(s.st, s.ip) && k in s.cp
    ensures var t := SettleCluster(s, k, C.Call(s.st, k, s.cp[k], fault)); Isolated(t.st, t.ip)
  {
    var p := s.cp[k];
    var out := C.Call(s.st, k, p, fault);
    assert PassSound(s.st, k, p) && Achieved(s.st, k, p);
    ClusterWriteIsolates(s.st, s.ip, k, p, fault);
    hide C.Call, Perform, Fits, Gated, Inv, PassSound, Achieved, Isolates;
    if out.then_.Next? {
      ClusterWriteFits(s.st, s.cp, s.ip, k, fault);
      WriteKeepsIsolated(s.st, s.cp, s.ip, out.write);
    } else {
      EndKeepsGate(s.st, s.cp, s.ip, k);
      EndKeeps(s.st, s.cp, k);
      ClusterLastFits(s.st, s.cp - {k}, s.ip, k, p, fault);
      WriteKeepsIsolated(s.st, s.cp - {k}, s.ip, out.write);
    }
    SettleQueue(s, k, out);
    QueueKeepsIsolated(Perform(s.st, out.write), SettleCluster(s, k, out).st, s.ip);
  }

  lemma QueueKeepsIsolated(s: Store, st: Store, ip: map<Key, I.Pass>)
    requires Isolated(s, ip) && st.names == s.names && st.spaces == s.spaces
    ensures Isolated(st, ip)
  {
    forall i, n | i in ip && Holds(st, ip[i], n) && n in st.spaces
      ensures st.spaces[n].home == I.ParentKey(i, ip[i].inst)
    {
      assert Holds(s, ip[i], n);
    }
  }

  lemma DoKeepsIsolated(s: System, a: Action)
    requires Inv(s.st, s.cp) && Gated(s.st, s.cp, s.ip) && Isolated(s.st, s.ip) && FreshTarget(s, a)
    ensures var t := Do(s, a); Isolated(t.st, t.ip)
  {
    hide C.Call, I.Call, Perform, Fits, Gated, Inv, Isolates;
    match a {
      case CallCluster(k, fault) => if k in s.cp { ClusterKeepsIsolated(s, k, fault); }
      case CallInst(i, fault) => if i in s.ip { InstKeepsIsolated(s, i, fault); }
      case Tick(_) => QueueKeepsIsolated(s.st, Do(s, a).st, s.ip);
      case Fire(_) => QueueKeepsIsolated(s.st, Do(s, a).st, s.ip);
      case StartInst(_) =>
      case StartCluster(_) => QueueKeepsIsolated(s.st, Do(s, a).st, s.ip);
      case _ =>
        OutsideWriteFits(s, a);
        OutsideWriteIsolates(s.st, s.ip, a);
        WriteKeepsIsolated(s.st, s.cp, s.ip, OutsideWrite(s.st, a));
    }
  }

  lemma {:induction false} RunKeepsIsolated(s: System, acts: seq<Action>)
    requires Inv(s.st, s.cp) && Gated(s.st, s.cp, s.ip) && Isolated(s.st, s.ip) && FreshTargets(s, acts)
    ensures var t := Run(s, acts); Inv(t.st, t.cp) && Gated(t.st, t.cp, t.ip) && Isolated(t.st, t.ip)
    decreases |acts|
  {
    hide Do, Inv, Gated, Isolated, FreshTarget;
    if acts != [] {
      DoKeeps(s, acts[0]);
      DoKeepsGate(s, acts[0]);
      DoKeepsIsolated(s, acts[0]);
      RunKeepsIsolated(Do(s, acts[0]), acts[1..]);
    }
  }

  /** A workload outlives neither the ClusterLab it was placed for nor that ClusterLab's finalizer. */
  lemma NoWorkloadOutlivesItsLab(s: System, acts: seq<Action>, n: string, o: ObjectKey)
    requires Initial(s) && FreshTargets(s, acts)
    requires n in Run(s, acts).st.spaces && o in Run(s, acts).st.spaces[n].objects
    ensures var t := Run(s, acts).st;
            var k := t.spaces[n].objects[o].placedFor;
            && k in t.labs && t.labs[k].finalizer && t.Target(k.name) == n
            && t.spaces[n].objects[o].placedBy.origin == k.origin
  {
    assert Gated(s.st, s.cp, s.ip) && Isolated(s.st, s.ip);
    hide Run, Do;
    RunKeepsIsolated(s, acts);
    var t := Run(s, acts).st;
    assert Houses(t, t.spaces[n].home, n) && SpacePlaced(t.spaces[n]);
  }

  /** Exactly when a bulk delete hits no workload of another InstanceLab. */
  lemma BulkDeleteHitsOwnOnly(s: Store, n: string, kind: Kind, i: Key)
    requires n in s.spaces && SpacePlaced(s.spaces[n])
    ensures var st := Perform(s, DeleteAllOf(s, n, kind, i.name));
            (forall o :: o in s.spaces[n].objects && o !in st.spaces[n].objects ==> s.spaces[n].objects[o].placedBy == i)
            <==>
            (s.spaces[n].home.origin == i.origin
             || !(exists o :: o in s.spaces[n].objects && Selected(s.spaces[n].objects, o, kind, i.name)))
  {
    var objects := s.spaces[n].objects;
    var left := Perform(s, DeleteAllOf(s, n, kind, i.name)).spaces[n].objects;
    assert forall o :: o in objects ==> (o !in left <==> Selected(objects, o, kind, i.name));
  }

  lemma SiblingKept(t: Store, i: Key, kind: Kind, n: string, o: ObjectKey)
    requires Homes(t) && Unique(t) && n in t.spaces && SpacePlaced(t.spaces[n])
    requires i in t.insts && I.ParentKey(i, t.insts[i]) in t.labs && n == t.Target(t.insts[i].spec.ref)
    requires o in t.spaces[n].objects && t.spaces[n].objects[o].placedBy != i
    ensures var u := Perform(t, DeleteAllOf(t, n, kind, i.name));
            n in u.spaces && o in u.spaces[n].objects && u.spaces[n].objects[o] == t.spaces[n].objects[o]
  {
    assert Houses(t, t.spaces[n].home, n);
    assert t.spaces[n].home == I.ParentKey(i, t.insts[i]);
    BulkDeleteHitsOwnOnly(t, n, kind, i);
  }

  /** While its parent is stored, cleaning up an InstanceLab leaves every other one's workloads alone. */
  lemma CleanupLeavesSiblings(s: System, acts: seq<Action>, i: Key, kind: Kind, n: string, o: ObjectKey)
    requires Initial(s) && FreshTargets(s, acts)
    requires var t := Run(s, acts).st;
             i in t.insts && I.ParentKey(i, t.insts[i]) in t.labs && n == t.Target(t.insts[i].spec.ref)
    requires var t := Run(s, acts).st;
             n in t.spaces && o in t.spaces[n].objects && t.spaces[n].objects[o].placedBy != i
    ensures var t := Run(s, acts).st;
            var u := Perform(t, DeleteAllOf(t, n, kind, i.name));
            n in u.spaces && o in u.spaces[n].objects && u.spaces[n].objects[o] == t.spaces[n].objects[o]
  {
    assert Gated(s.st, s.cp, s.ip) && Isolated(s.st, s.ip);
    hide Run, Do, Perform, DeleteAllOf, SpacePlaced;
    RunKeepsIsolated(s, acts);
    SiblingKept(Run(s, acts).st, i, kind, n, o);
  }
}
