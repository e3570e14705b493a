/** What a ClusterLab pass in flight knows of the stored object, whatever else happens meanwhile. */
module PassFacts {
  import opened LabStore
  import opened LabSystem
  import opened NoResidue
  import C = ClusterLabController
  import I = InstanceLabController

  ghost predicate Dying(p: C.Pass) { p.DeleteTarget? || p.CheckTarget? || p.RemoveFinalizer? }

  /** The stored object is a later state of the one that was read. */
  ghost predicate SameLab(s: Store, k: Key, lab: ClusterLab)
  {
    k in s.labs && s.labs[k].uid == lab.uid && s.labs[k].created == lab.created
  }

  ghost predicate Facts(s: Store, k: Key, p: C.Pass)
  {
    && (p.AddFinalizer? ==> !p.lab.finalizer && !p.lab.deleting)
    && (Dying(p) ==> p.lab.deleting && k in s.labs && s.labs[k].deleting)
    && (C.Provisions(p) || p.DeleteExpired? ==> SameLab(s, k, p.lab) && !p.lab.deleting && p.lab.finalizer)
    && (p.DeleteExpired? ==> p.lab.spec.ttl.Lasts? && s.now >= p.lab.created + p.lab.spec.ttl.duration)
  }

  ghost predicate AllFacts(s: Store, cp: map<Key, C.Pass>)
  {
    forall k :: k in cp ==> Facts(s, k, cp[k])
  }

  /** Writes that respect the identity of stored ClusterLabs. */
  ghost predicate Keeps(s: Store, cp: map<Key, C.Pass>, w: Write)
  {
    match w
    case PutLab(k, lab) =>
      k in s.labs ==> SameLab(s, k, lab) && (s.labs[k].deleting ==> lab.deleting)
    case DropLab(k) => k in cp ==> !C.Guarded(cp[k])
    case _ => true
  }

  lemma WriteKeepsFacts(s: Store, cp: map<Key, C.Pass>, w: Write)
    requires AllFacts(s, cp) && Keeps(s, cp, w)
    ensures AllFacts(Perform(s, w), cp)
  {
    forall k | k in cp ensures Facts(Perform(s, w), k, cp[k]) {
      assert Facts(s, k, cp[k]);
    }
  }

  lemma OutsideKeeps(s: Store, cp: map<Key, C.Pass>, a: Action)
    requires Inv(s, cp)
    ensures Keeps(s, cp, OutsideWrite(s, a))
  {
  }

  lemma InstKeepsLabs(s: Store, cp: map<Key, C.Pass>, i: Key, p: I.Pass, fault: bool)
    ensures var w := I.Call(s, i, p, fault).write; !w.PutLab? && !w.DropLab?
  {
  }

  lemma ClusterKeepsLabs(s: Store, cp: map<Key, C.Pass>, k: Key, p: C.Pass, fault: bool)
    requires PassSound(s, k, p) && Facts(s, k, p)
    requires if C.Call(s, k, p, fault).then_.Next? then k in cp && cp[k] == p else k !in cp
    ensures Keeps(s, cp, C.Call(s, k, p, fault).write)
  {
    match p {
      case Get =>
      case AddFinalizer(_) =>
      case RemoveFinalizer(_) =>
      case DeleteExpired(_) =>
      case WriteStatus(_, _, _) =>
      case WriteFailed(_, _) =>
      case _ =>
    }
  }

  lemma CallFacts(s: Store, k: Key, p: C.Pass, fault: bool)
    requires Facts(s, k, p)
    ensures var out := C.Call(s, k, p, fault); out.then_.Next? ==> Facts(s, k, out.then_.pass)
  {
    hide C.Opening, C.RunningStatus, C.FailedStatus, C.Counted, SpaceLabels, Hard, PolicyFor;
    match p {
      case Get =>
      case DeleteTarget(_) =>
      case CheckTarget(_) =>
      case ReadClock(_, _) =>
      case ApplyNamespace(_, _, _) =>
      case ApplyQuota(_, _, _) =>
      case ApplyNetwork(_, _, _) =>
      case ListInstances(_, _, _) =>
      case _ =>
    }
  }

  /** A call after which the pass goes on writes no ClusterLab. */
  lemma MiddleCallWrites(s: Store, k: Key, p: C.Pass, fault: bool)
    ensures var out := C.Call(s, k, p, fault);
            out.then_.Next? ==> out.write.Nothing? || out.write.PutSpace?
  {
  }

  lemma SameLabsSameFacts(s: Store, k: Key, p: C.Pass, w: Write)
    requires Facts(s, k, p) && (w.Nothing? || w.PutSpace?)
    ensures Facts(Perform(s, w), k, p)
  {
  }

  lemma ClusterKeepsFacts(s: System, k: Key, fault: bool)
    requires Inv(s.st, s.cp) && AllFacts(s.st, s.cp) && k in s.cp
    ensures var t := SettleCluster(s, k, C.Call(s.st, k, s.cp[k], fault)); AllFacts(t.st, t.cp)
  {
    var p := s.cp[k];
    var out := C.Call(s.st, k, p, fault);
    assert PassSound(s.st, k, p) && Facts(s.st, k, p);
    SettleQueue(s, k, out);
    hide C.Call, Perform, Keeps, Inv, PassSound, Facts, AllFacts, SettleCluster;
    var st := Perform(s.st, out.write);
    var t := SettleCluster(s, k, out);
    if out.then_.Next? {
      ClusterKeepsLabs(s.st, s.cp, k, p, fault);
      WriteKeepsFacts(s.st, s.cp, out.write);
      CallFacts(s.st, k, p, fault);
      MiddleCallWrites(s.st, k, p, fault);
      SameLabsSameFacts(s.st, k, out.then_.pass, out.write);
      AdvanceFacts(st, s.cp, k, out.then_.pass);
    } else {
      EndFacts(s.st, s.cp, k);
      ClusterKeepsLabs(s.st, s.cp - {k}, k, p, fault);
      WriteKeepsFacts(s.st, s.cp - {k}, out.write);
    }
    QueueKeepsFacts(st, t.st, t.cp);
  }

  lemma AdvanceFacts(s: Store, cp: map<Key, C.Pass>, k: Key, p: C.Pass)
    requires AllFacts(s, cp) && Facts(s, k, p)
    ensures AllFacts(s, cp[k := p])
  {
  }

  lemma EndFacts(s: Store, cp: map<Key, C.Pass>, k: Key)
    requires AllFacts(s, cp)
    ensures AllFacts(s, cp - {k})
  {
  }

  lemma QueueKeepsFacts(s: Store, st: Store, cp: map<Key, C.Pass>)
    requires AllFacts(s, cp) && st.labs == s.labs && st.now >= s.now
    ensures AllFacts(st, cp)
  {
    forall k | k in cp ensures Facts(st, k, cp[k]) {
      assert Facts(s, k, cp[k]);
    }
  }

  lemma FreshFacts(s: Store, k: Key)
    ensures Facts(s, k, C.Get)
  {
  }

  lemma DoKeepsFacts(s: System, a: Action)
    requires Inv(s.st, s.cp) && AllFacts(s.st, s.cp)
    ensures var t := Do(s, a); AllFacts(t.st, t.cp)
  {
    hide C.Call, I.Call, Perform, Keeps, Inv, Facts;
    match a {
      case CallCluster(k, fault) => if k in s.cp { ClusterKeepsFacts(s, k, fault); }
      case CallInst(i, fault) =>
        if i in s.ip {
          InstKeepsLabs(s.st, s.cp, i, s.ip[i], fault);
          NoLabWrite(s.st, s.cp, I.Call(s.st, i, s.ip[i], fault).write);
          WriteKeepsFacts(s.st, s.cp, I.Call(s.st, i, s.ip[i], fault).write);
        }
      case Tick(_) => QueueKeepsFacts(s.st, Do(s, a).st, s.cp);
      case Fire(_) => QueueKeepsFacts(s.st, Do(s, a).st, s.cp);
      case StartInst(_) =>
      case StartCluster(k) =>
        FreshFacts(s.st, k);
        if k !in s.cp { QueueKeepsFacts(s.st, Do(s, a).st, s.cp[k := C.Get]); }
      case _ =>
        OutsideKeeps(s.st, s.cp, a);
        WriteKeepsFacts(s.st, s.cp, OutsideWrite(s.st, a));
    }
  }

  lemma NoLabWrite(s: Store, cp: map<Key, C.Pass>, w: Write)
    requires !w.PutLab? && !w.DropLab?
    ensures Keeps(s, cp, w)
  {
  }

  lemma {:induction false} RunKeepsFacts(s: System, acts: seq<Action>)
    requires Inv(s.st, s.cp) && AllFacts(s.st, s.cp)
    ensures var t := Run(s, acts); Inv(t.st, t.cp) && AllFacts(t.st, t.cp)
    decreases |acts|
  {
    hide Do, Inv, AllFacts;
    if acts != [] {
      DoKeeps(s, acts[0]);
      DoKeepsFacts(s, acts[0]);
      RunKeepsFacts(Do(s, acts[0]), acts[1..]);
    }
  }
}
