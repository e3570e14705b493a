/**
 The instance counters: when a live ClusterLab is neither queued nor being reconciled, its
 stored counters are the number of stored InstanceLabs that reference it and of those that
 run, through creation, deletion, phase changes and re-parenting. An InstanceLab that
 changes enqueues the parent it had and the one it has; only a failing list, whose error is
 dropped, can break this (`ListSucceeds`).
 */
module Counters {
  import Conditions
  import opened LabStore
  import opened LabSystem
  import opened NoResidue
  import opened PassFacts
  import C = ClusterLabController
  import I = InstanceLabController

  ghost predicate ListSucceeds(s: System, a: Action)
  {
    a.CallCluster? && a.k in s.cp && s.cp[a.k].ListInstances? ==> !a.fault
  }

  ghost predicate Agrees(s: Store, k: Key, status: ClusterStatus)
  {
    status.total == |Members(s, k)| && status.ready == |RunningMembers(s, k)|
  }

  /** A live lab that nobody is about to reconcile. */
  ghost predicate AtRest(s: Store, cp: map<Key, C.Pass>, k: Key)
  {
    k in s.labs && !s.labs[k].deleting && k !in s.dirty && k !in cp
  }

  ghost predicate LabCounted(s: Store, cp: map<Key, C.Pass>, k: Key)
  {
    AtRest(s, cp, k) ==> Agrees(s, k, s.labs[k].status)
  }

  ghost predicate PassCounted(s: Store, k: Key, p: C.Pass)
  {
    p.WriteStatus? && k !in s.dirty ==> Agrees(s, k, p.mem)
  }

  /** Object names are not empty. */
  ghost predicate Counted(s: Store, cp: map<Key, C.Pass>)
  {
    forall k: Key :: k.name != "" ==> LabCounted(s, cp, k) && (k in cp ==> PassCounted(s, k, cp[k]))
  }

  /** Whatever is written, a key keeps its members or is queued. */
  lemma MembersStable(s: Store, w: Write, k: Key)
    requires k.name != ""
    ensures var st := Perform(s, w);
            && s.dirty <= st.dirty
            && (k in st.dirty || (Members(st, k) == Members(s, k) && RunningMembers(st, k) == RunningMembers(s, k)))
  {
    var st := Perform(s, w);
    if k !in st.dirty {
      forall i ensures i in Members(st, k) <==> i in Members(s, k) {
      }
      forall i ensures i in RunningMembers(st, k) <==> i in RunningMembers(s, k) {
      }
    }
  }

  lemma WriteKeepsLab(s: Store, cp: map<Key, C.Pass>, w: Write, k: Key)
    requires k.name != "" && LabCounted(s, cp, k)
    ensures LabCounted(Perform(s, w), cp, k)
  {
    MembersStable(s, w, k);
    hide Members, RunningMembers;
  }

  lemma WriteKeepsPass(s: Store, w: Write, k: Key, p: C.Pass)
    requires k.name != "" && PassCounted(s, k, p)
    ensures PassCounted(Perform(s, w), k, p)
  {
    MembersStable(s, w, k);
    hide Members, RunningMembers;
  }

  lemma WriteKeepsCounted(s: Store, cp: map<Key, C.Pass>, w: Write)
    requires Counted(s, cp)
    ensures Counted(Perform(s, w), cp)
  {
    hide Perform, LabCounted, PassCounted;
    forall k: Key | k.name != ""
      ensures LabCounted(Perform(s, w), cp, k) && (k in cp ==> PassCounted(Perform(s, w), k, cp[k]))
    {
      WriteKeepsLab(s, cp, w, k);
      if k in cp { WriteKeepsPass(s, w, k, cp[k]); }
    }
  }

  /** The call before the last takes the counts. */
  lemma NextCounted(s: Store, k: Key, p: C.Pass, fault: bool)
    requires p.ListInstances? ==> !fault
    ensures var out := C.Call(s, k, p, fault);
            out.then_.Next? ==> PassCounted(Perform(s, out.write), k, out.then_.pass)
  {
    hide Members, RunningMembers, Conditions.Set;
    match p {
      case ListInstances(_, _, _) =>
      case Get =>
      case _ =>
    }
  }

  /** The last call of a pass leaves the lab counted, queued, or no longer live. */
  lemma LastCounted(s: System, k: Key, fault: bool)
    requires k in s.cp && k.name != ""
    requires PassSound(s.st, k, s.cp[k]) && Facts(s.st, k, s.cp[k]) && PassCounted(s.st, k, s.cp[k])
    requires !C.Call(s.st, k, s.cp[k], fault).then_.Next?
    ensures var t := SettleCluster(s, k, C.Call(s.st, k, s.cp[k], fault)); LabCounted(t.st, t.cp, k)
  {
    hide Members, RunningMembers;
    match s.cp[k] {
      case AddFinalizer(_) =>
      case WriteStatus(_, _, _) => StatusCounted(s, k, fault); hide C.Call;
      case WriteFailed(_, _) =>
      case DeleteExpired(_) =>
      case _ =>
    }
  }

  lemma StatusCounted(s: System, k: Key, fault: bool)
    requires k in s.cp && k.name != "" && s.cp[k].WriteStatus?
    requires PassSound(s.st, k, s.cp[k]) && Facts(s.st, k, s.cp[k]) && PassCounted(s.st, k, s.cp[k])
    ensures var t := SettleCluster(s, k, C.Call(s.st, k, s.cp[k], fault)); LabCounted(t.st, t.cp, k)
  {
    var p := s.cp[k];
    MembersStable(s.st, UpdateLab(k, p.lab.(status := p.mem)), k);
    hide Members, RunningMembers;
  }

  /** Queue changes that only add work, and passes that stay in flight, keep the counters. */
  lemma QueueKeepsCounted(s: Store, st: Store, cp: map<Key, C.Pass>)
    requires Counted(s, cp)
    requires st.labs == s.labs && st.insts == s.insts && s.dirty <= st.dirty
    ensures Counted(st, cp)
  {
    forall k: Key | k.name != "" ensures LabCounted(st, cp, k) && (k in cp ==> PassCounted(st, k, cp[k])) {
      assert LabCounted(s, cp, k) && (k in cp ==> PassCounted(s, k, cp[k]));
      assert Members(s, k) == Members(st, k) && RunningMembers(s, k) == RunningMembers(st, k);
    }
  }

  lemma MiddleKeepsCounted(s: System, k: Key, fault: bool)
    requires Counted(s.st, s.cp) && k in s.cp && C.Call(s.st, k, s.cp[k], fault).then_.Next?
    requires s.cp[k].ListInstances? ==> !fault
    ensures var t := SettleCluster(s, k, C.Call(s.st, k, s.cp[k], fault)); Counted(t.st, t.cp)
  {
    var out := C.Call(s.st, k, s.cp[k], fault);
    hide C.Call, Perform, LabCounted, PassCounted;
    WriteKeepsCounted(s.st, s.cp, out.write);
    NextCounted(s.st, k, s.cp[k], fault);
    Advance(Perform(s.st, out.write), s.cp, k, out.then_.pass);
  }

  lemma Advance(s: Store, cp: map<Key, C.Pass>, k: Key, p: C.Pass)
    requires Counted(s, cp) && k in cp && PassCounted(s, k, p)
    ensures Counted(s, cp[k := p])
  {
    hide Agrees;
    forall l: Key | l.name != "" ensures LabCounted(s, cp[k := p], l) {
      assert LabCounted(s, cp, l);
    }
  }

  lemma LastKeepsCounted(s: System, k: Key, fault: bool)
    requires Inv(s.st, s.cp) && AllFacts(s.st, s.cp) && Counted(s.st, s.cp) && k in s.cp
    requires !C.Call(s.st, k, s.cp[k], fault).then_.Next?
    ensures var t := SettleCluster(s, k, C.Call(s.st, k, s.cp[k], fault)); Counted(t.st, t.cp)
  {
    var out := C.Call(s.st, k, s.cp[k], fault);
    var t := SettleCluster(s, k, out);
    assert PassSound(s.st, k, s.cp[k]) && Facts(s.st, k, s.cp[k]);
    hide C.Call, Perform, PassSound, Facts, Inv, Agrees;
    WriteKeepsCounted(s.st, s.cp, out.write);
    SettleQueue(s, k, out);
    SettleAddsWork(s, k, out);
    QueueKeepsCounted(Perform(s.st, out.write), t.st, s.cp);
    forall l: Key | l.name != "" ensures LabCounted(t.st, t.cp, l) && (l in t.cp ==> PassCounted(t.st, l, t.cp[l])) {
      assert LabCounted(t.st, s.cp, l) && (l in s.cp ==> PassCounted(t.st, l, s.cp[l]));
      if l == k { LastCounted(s, k, fault); }
    }
  }

  lemma SettleAddsWork(s: System, k: Key, out: C.Outcome)
    ensures Perform(s.st, out.write).dirty <= SettleCluster(s, k, out).st.dirty
  {
    hide Perform;
    match out.then_ { case Next(_) => case Done(_) => case Err => }
  }

  lemma StartKeepsCounted(s: System, k: Key)
    requires Counted(s.st, s.cp) && k !in s.cp
    ensures var t := Do(s, StartCluster(k)); Counted(t.st, t.cp)
  {
    var t := Do(s, StartCluster(k));
    forall l: Key | l.name != "" ensures LabCounted(t.st, t.cp, l) && (l in t.cp ==> PassCounted(t.st, l, t.cp[l])) {
      assert LabCounted(s.st, s.cp, l) && (l in s.cp ==> PassCounted(s.st, l, s.cp[l]));
      assert Members(s.st, l) == Members(t.st, l) && RunningMembers(s.st, l) == RunningMembers(t.st, l);
    }
  }

  lemma DoKeepsCounted(s: System, a: Action)
    requires Inv(s.st, s.cp) && AllFacts(s.st, s.cp) && Counted(s.st, s.cp) && ListSucceeds(s, a)
    ensures var t := Do(s, a); Counted(t.st, t.cp)
  {
    hide C.Call, I.Call, Perform, Inv, AllFacts, Counted, SettleCluster;
    match a {
      case CallCluster(k, fault) =>
        if k in s.cp {
          if C.Call(s.st, k, s.cp[k], fault).then_.Next? {
            MiddleKeepsCounted(s, k, fault);
          } else {
            LastKeepsCounted(s, k, fault);
          }
        }
      case CallInst(i, fault) =>
        if i in s.ip { WriteKeepsCounted(s.st, s.cp, I.Call(s.st, i, s.ip[i], fault).write); }
      case Tick(_) => QueueKeepsCounted(s.st, Do(s, a).st, s.cp);
      case Fire(_) => QueueKeepsCounted(s.st, Do(s, a).st, s.cp);
      case StartInst(_) =>
      case StartCluster(k) => if k !in s.cp { StartKeepsCounted(s, k); }
      case _ => WriteKeepsCounted(s.st, s.cp, OutsideWrite(s.st, a));
    }
  }

  ghost predicate ListsSucceed(s: System, acts: seq<Action>)
    decreases |acts|
  {
    acts != [] ==> ListSucceeds(s, acts[0]) && ListsSucceed(Do(s, acts[0]), acts[1..])
  }

  lemma {:induction false} RunKeepsCounted(s: System, acts: seq<Action>)
    requires Inv(s.st, s.cp) && AllFacts(s.st, s.cp) && Counted(s.st, s.cp) && ListsSucceed(s, acts)
    ensures var t := Run(s, acts); Counted(t.st, t.cp)
    decreases |acts|
  {
    hide Do, Inv, AllFacts, Counted, ListSucceeds;
    if acts != [] {
      DoKeeps(s, acts[0]);
      DoKeepsFacts(s, acts[0]);
      DoKeepsCounted(s, acts[0]);
      RunKeepsCounted(Do(s, acts[0]), acts[1..]);
    }
  }

  /** At rest, the stored counters are the truth. */
  lemma CountersAreTrue(s: System, acts: seq<Action>, k: Key)
    requires Initial(s) && ListsSucceed(s, acts) && k.name != ""
    requires AtRest(Run(s, acts).st, Run(s, acts).cp, k)
    ensures var t := Run(s, acts).st;
            && t.labs[k].status.total == |set i | i in t.insts && i.origin == k.origin && t.insts[i].spec.ref == k.name|
            && t.labs[k].status.ready == |set i | i in t.insts && i.origin == k.origin && t.insts[i].spec.ref == k.name
                                                   && t.insts[i].status.phase == Running|
  {
    hide Run;
    assert Counted(s.st, s.cp);
    RunKeepsCounted(s, acts);
    assert LabCounted(Run(s, acts).st, Run(s, acts).cp, k);
  }
}
