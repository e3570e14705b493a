/**
 Deletion drains. Once the namespace of a ClusterLab under deletion is terminating, no step
 of anybody adds to it or brings it back; and from any state of any run the
 namespace controller and one more pass of the reconciler can take the ClusterLab away.
 */
module Drain {
  import opened LabStore
  import opened LabSystem
  import opened NoResidue
  import opened PassFacts
  import opened ReadinessGate
  import C = ClusterLabController
  import I = InstanceLabController

  /** Under deletion, with no provisioning pass left and no active namespace. */
  ghost predicate Draining(s: System, k: Key)
  {
    && Quiet(s.st, s.cp, k)
    && (s.st.Target(k.name) in s.st.spaces ==> s.st.spaces[s.st.Target(k.name)].terminating)
  }

  /** What is left: the objects of the namespace, the namespace itself, the ClusterLab. */
  ghost function Left(s: Store, k: Key): nat
  {
    var n := s.Target(k.name);
    (if n in s.spaces then 1 + |s.spaces[n].objects| else 0) + (if k in s.labs then 1 else 0)
  }

  /** The later store has no namespace or object that the earlier one had not, nor more left. */
  ghost predicate Fewer(s: Store, t: Store, k: Key)
  {
    var n := s.Target(k.name);
    && t.names == s.names
    && (n in t.spaces ==> n in s.spaces && t.spaces[n].objects.Keys <= s.spaces[n].objects.Keys)
    && Left(t, k) <= Left(s, k)
  }

  lemma FewerOn(s: Store, u: Store, t: Store, k: Key)
    requires Fewer(s, u, k) && Fewer(u, t, k)
    ensures Fewer(s, t, k)
  {
    hide Left;
  }

  lemma FewerSelf(s: Store, k: Key)
    ensures Fewer(s, s, k)
  {
  }

  /** A terminating namespace stays terminating and takes no new object. */
  ghost predicate Shrinks(s: Store, w: Write)
  {
    w.PutSpace? && w.n in s.spaces && s.spaces[w.n].terminating ==>
      w.space.terminating && w.space.objects.Keys <= s.spaces[w.n].objects.Keys
  }

  lemma OutsideShrinks(s: Store, a: Action)
    ensures Shrinks(s, OutsideWrite(s, a))
  {
  }

  lemma InstShrinks(s: Store, i: Key, p: I.Pass, fault: bool)
    ensures Shrinks(s, I.Call(s, i, p, fault).write)
  {
  }

  lemma ClusterShrinks(s: Store, k: Key, p: C.Pass, fault: bool)
    ensures Shrinks(s, C.Call(s, k, p, fault).write)
  {
  }

  /** A write that adds a namespace. */
  ghost predicate Adds(s: Store, w: Write, n: string)
  {
    w.PutSpace? && w.n == n && n !in s.spaces
  }

  lemma OutsideAddsNone(s: Store, a: Action, n: string)
    ensures !Adds(s, OutsideWrite(s, a), n)
  {
  }

  lemma InstAddsNone(s: Store, i: Key, p: I.Pass, fault: bool, n: string)
    ensures !Adds(s, I.Call(s, i, p, fault).write, n)
  {
  }

  lemma ClusterAdds(s: Store, k: Key, p: C.Pass, fault: bool, n: string)
    ensures Adds(s, C.Call(s, k, p, fault).write, n) ==> p.ApplyNamespace? && s.Target(k.name) == n
  {
  }

  /** A write leaves a deleted ClusterLab deleted. */
  ghost predicate KeepsDeleting(s: Store, w: Write, k: Key)
  {
    w.PutLab? && w.k == k && k in s.labs && s.labs[k].deleting ==> w.lab.deleting
  }

  lemma OutsideKeepsDeleting(s: Store, a: Action, k: Key)
    ensures KeepsDeleting(s, OutsideWrite(s, a), k)
  {
  }

  lemma ClusterKeepsDeleting(s: Store, l: Key, p: C.Pass, fault: bool, k: Key)
    ensures KeepsDeleting(s, C.Call(s, l, p, fault).write, k)
  {
  }

  lemma InstKeepsDeleting(s: Store, i: Key, p: I.Pass, fault: bool, k: Key)
    ensures var w := I.Call(s, i, p, fault).write; !w.PutLab? && !w.DropLab?
  {
  }

  /** One write: nothing is added and deletion is not undone. */
  lemma WriteDrains(s: Store, w: Write, k: Key)
    requires Shrinks(s, w) && !Adds(s, w, s.Target(k.name)) && KeepsDeleting(s, w, k)
    requires k in s.labs && s.labs[k].deleting
    requires s.Target(k.name) in s.spaces ==> s.spaces[s.Target(k.name)].terminating
    ensures var t := Perform(s, w);
            && (k in t.labs ==> t.labs[k].deleting)
            && (s.Target(k.name) in t.spaces ==> t.spaces[s.Target(k.name)].terminating)
            && Fewer(s, t, k)
  {
    var n := s.Target(k.name);
    var t := Perform(s, w);
    if n in s.spaces && n in t.spaces {
      FewerKeys(t.spaces[n].objects, s.spaces[n].objects);
    }
  }

  lemma FewerKeys<A, B>(a: map<A, B>, b: map<A, B>)
    requires a.Keys <= b.Keys
    ensures |a| <= |b|
  {
    SubsetSize(a.Keys, b.Keys);
    assert |a| == |a.Keys| && |b| == |b.Keys|;
  }

  lemma {:induction false} SubsetSize<A>(a: set<A>, b: set<A>)
    requires a <= b
    ensures |a| <= |b|
  {
    if a != {} {
      var x :| x in a;
      SubsetSize(a - {x}, b - {x});
    }
  }

  /** A pass over a ClusterLab under deletion does not start to provision. */
  lemma StaysQuiet(s: Store, k: Key, p: C.Pass, fault: bool)
    requires k in s.labs && s.labs[k].deleting && !C.Provisions(p)
    ensures var t := C.Call(s, k, p, fault).then_; t.Next? ==> !C.Provisions(t.pass)
  {
  }

  lemma WriteShrinks(s: System, a: Action)
    ensures Shrinks(s.st, WriteOf(s, a))
  {
    hide C.Call, I.Call, OutsideWrite;
    OutsideShrinks(s.st, a);
    match a {
      case CallCluster(k, fault) => if k in s.cp { ClusterShrinks(s.st, k, s.cp[k], fault); }
      case CallInst(i, fault) => if i in s.ip { InstShrinks(s.st, i, s.ip[i], fault); }
      case _ =>
    }
  }

  lemma WriteKeepsDeleting(s: System, a: Action, k: Key)
    ensures KeepsDeleting(s.st, WriteOf(s, a), k)
  {
    hide C.Call, I.Call, OutsideWrite;
    OutsideKeepsDeleting(s.st, a, k);
    match a {
      case CallCluster(l, fault) => if l in s.cp { ClusterKeepsDeleting(s.st, l, s.cp[l], fault, k); }
      case CallInst(i, fault) => if i in s.ip { InstKeepsDeleting(s.st, i, s.ip[i], fault, k); }
      case _ =>
    }
  }

  /** Only a provisioning pass of the ClusterLab itself could bring its namespace back. */
  lemma WriteAddsNone(s: System, a: Action, k: Key)
    requires Inv(s.st, s.cp) && Unique(s.st) && Quiet(s.st, s.cp, k)
    ensures !Adds(s.st, WriteOf(s, a), s.st.Target(k.name))
  {
    hide C.Call, I.Call, OutsideWrite;
    var n := s.st.Target(k.name);
    OutsideAddsNone(s.st, a, n);
    match a {
      case CallCluster(l, fault) =>
        if l in s.cp {
          assert PassSound(s.st, l, s.cp[l]);
          ClusterAdds(s.st, l, s.cp[l], fault, n);
        }
      case CallInst(i, fault) => if i in s.ip { InstAddsNone(s.st, i, s.ip[i], fault, n); }
      case _ =>
    }
  }

  lemma PassStaysQuiet(s: System, a: Action, k: Key)
    requires Quiet(s.st, s.cp, k)
    ensures k in Do(s, a).cp ==> !C.Provisions(Do(s, a).cp[k])
  {
    hide C.Call, I.Call, Perform, OutsideWrite;
    match a {
      case CallCluster(l, fault) =>
        if l in s.cp {
          SettleQueue(s, l, C.Call(s.st, l, s.cp[l], fault));
          hide SettleCluster;
          if l == k { StaysQuiet(s.st, k, s.cp[k], fault); }
        }
      case _ =>
    }
  }

  lemma NamesStay(s: Store, w: Write)
    ensures Perform(s, w).names == s.names
  {
  }

  /** No step of anybody brings the namespace back or adds to what is left. */
  lemma StepDrains(s: System, a: Action, k: Key)
    requires Inv(s.st, s.cp) && Gated(s.st, s.cp, s.ip) && Draining(s, k)
    ensures var t := Do(s, a);
            Fewer(s.st, t.st, k) && (k in t.st.labs ==> Draining(t, k))
  {
    DoPerforms(s, a);
    WriteShrinks(s, a);
    WriteKeepsDeleting(s, a, k);
    WriteAddsNone(s, a, k);
    PassStaysQuiet(s, a, k);
    var w := WriteOf(s, a);
    var t := Do(s, a);
    hide Do, WriteOf, Perform, Shrinks, Adds, KeepsDeleting, Inv, Gated, C.Provisions;
    WriteDrains(s.st, w, k);
    assert t.st.labs == Perform(s.st, w).labs && t.st.spaces == Perform(s.st, w).spaces;
    assert t.st.names == Perform(s.st, w).names;
    NamesStay(s.st, w);
  }

  /** Every object that goes leaves less. */
  lemma ObjectDecreases(s: System, k: Key, o: ObjectKey)
    requires s.st.Target(k.name) in s.st.spaces && o in s.st.spaces[s.st.Target(k.name)].objects
    ensures Left(Do(s, RemoveWorkload(s.st.Target(k.name), o)).st, k) == Left(s.st, k) - 1
  {
    hide Do;
    ObjectGoes(s, s.st.Target(k.name), o);
  }

  /** So does the empty namespace. */
  lemma SpaceDecreases(s: System, k: Key)
    requires var n := s.st.Target(k.name);
             n in s.st.spaces && s.st.spaces[n].terminating && s.st.spaces[n].objects == map[]
    ensures Left(Do(s, FinishSpace(s.st.Target(k.name))).st, k) == Left(s.st, k) - 1
  {
  }

  /** The ClusterLab is stored all along the run. */
  ghost predicate Stays(s: System, acts: seq<Action>, k: Key)
    decreases |acts|
  {
    k in s.st.labs && (acts != [] ==> Stays(Do(s, acts[0]), acts[1..], k))
  }

  /** Once it drains, it drains until the ClusterLab is gone, and nothing is added. */
  lemma {:induction false} RunDrains(s: System, acts: seq<Action>, k: Key)
    requires Inv(s.st, s.cp) && Gated(s.st, s.cp, s.ip) && Draining(s, k)
    requires FreshTargets(s, acts) && Stays(s, acts, k)
    ensures var t := Run(s, acts); Draining(t, k) && Fewer(s.st, t.st, k)
    decreases |acts|
  {
    hide Do, Inv, Gated, Draining, Fewer, FreshTarget;
    if acts == [] {
      FewerSelf(s.st, k);
    } else {
      var u := Do(s, acts[0]);
      StepDrains(s, acts[0], k);
      DoKeeps(s, acts[0]);
      DoKeepsGate(s, acts[0]);
      RunDrains(u, acts[1..], k);
      FewerOn(s.st, u.st, Run(s, acts).st, k);
    }
  }

  // ----- where draining begins ----------------------------------------------------

  /** A terminating namespace means that its ClusterLab drains. */
  lemma TerminatingDrains(s: System, k: Key)
    requires Inv(s.st, s.cp) && Gated(s.st, s.cp, s.ip) && k in s.st.labs
    requires var n := s.st.Target(k.name); n in s.st.spaces && s.st.spaces[n].terminating
    ensures Draining(s, k)
  {
    var n := s.st.Target(k.name);
    assert SpaceRight(s.st, s.cp, s.st.spaces[n]) && Houses(s.st, s.st.spaces[n].home, n);
  }

  /** The Delete call of the reconciler begins it, whether or not there is a namespace. */
  lemma DeleteDrains(s: System, k: Key)
    requires Inv(s.st, s.cp) && Gated(s.st, s.cp, s.ip) && k in s.cp && s.cp[k].DeleteTarget?
    ensures var t := Do(s, CallCluster(k, false)); Draining(t, k) && Fewer(s.st, t.st, k)
  {
    var p := s.cp[k];
    var t := Do(s, CallCluster(k, false));
    assert PassSound(s.st, k, p) && Achieved(s.st, k, p);
    DeleteCall(s, k);
    hide Gated, Inv, PassSound, Achieved, Do, Stays;
    assert t.cp[k] == C.CheckTarget(p.lab);
  }

  lemma DeleteCall(s: System, k: Key)
    requires k in s.cp && s.cp[k].DeleteTarget? && TargetRight(s.st, k, s.cp[k].lab.status)
    ensures var t := Do(s, CallCluster(k, false));
            var n := s.st.Target(k.name);
            && t.cp == s.cp[k := C.CheckTarget(s.cp[k].lab)]
            && t.st.names == s.st.names && t.st.labs == s.st.labs
            && t.st.spaces == if n in s.st.spaces then s.st.spaces[n := s.st.spaces[n].(terminating := true)]
                              else s.st.spaces
  {
  }

  /**
   In every run: from the Delete call of the reconciler on, until the ClusterLab is gone, its
   namespace is terminating or absent and holds only objects that it held before the call.
   */
  lemma DeletionNeverAdds(s: System, before: seq<Action>, after: seq<Action>, k: Key)
    requires Initial(s) && FreshTargets(s, before + ([CallCluster(k, false)] + after))
    requires var u := Run(s, before);
             k in u.cp && u.cp[k].DeleteTarget? && Stays(Do(u, CallCluster(k, false)), after, k)
    ensures var u := Run(s, before);
            var t := Run(s, before + ([CallCluster(k, false)] + after));
            Draining(t, k) && Fewer(u.st, t.st, k)
  {
    assert Gated(s.st, s.cp, s.ip);
    hide Run, Do, Inv, Gated, Draining, Fewer, FreshTarget;
    var a := CallCluster(k, false);
    FreshSplit(s, before, [a] + after);
    RunKeepsGate(s, before);
    var u := Run(s, before);
    assert ([a] + after)[0] == a && ([a] + after)[1..] == after;
    DoKeeps(u, a);
    DoKeepsGate(u, a);
    DeleteDrains(u, k);
    RunDrains(Do(u, a), after, k);
    RunAppend(s, before, [a] + after);
    RunCons(u, a, after);
    FewerOn(u.st, Do(u, a).st, Run(Do(u, a), after).st, k);
  }

  /** The same from any state in which the namespace is found terminating. */
  lemma TerminatingNeverAdds(s: System, before: seq<Action>, after: seq<Action>, k: Key)
    requires Initial(s) && FreshTargets(s, before + after)
    requires var u := Run(s, before);
             var n := u.st.Target(k.name);
             n in u.st.spaces && u.st.spaces[n].terminating && Stays(u, after, k)
    ensures var u := Run(s, before);
            var t := Run(s, before + after);
            Draining(t, k) && Fewer(u.st, t.st, k)
  {
    assert Gated(s.st, s.cp, s.ip);
    hide Run, Inv, Gated, Draining, Fewer, FreshTarget;
    FreshSplit(s, before, after);
    RunKeepsGate(s, before);
    TerminatingDrains(Run(s, before), k);
    RunAppend(s, before, after);
    RunDrains(Run(s, before), after, k);
  }

  lemma {:induction false} FreshSplit(s: System, a: seq<Action>, b: seq<Action>)
    requires FreshTargets(s, a + b)
    ensures FreshTargets(s, a) && FreshTargets(Run(s, a), b)
    decreases |a|
  {
    hide Do, FreshTarget;
    if a == [] {
      assert a + b == b;
    } else {
      assert (a + b)[0] == a[0] && (a + b)[1..] == a[1..] + b;
      FreshSplit(Do(s, a[0]), a[1..], b);
    }
  }

  // ----- deletion can always be completed ---------------------------------------

  /** A ClusterLab under deletion is stored only for its finalizer. */
  ghost predicate Kept(s: Store)
  {
    forall k :: k in s.labs && s.labs[k].deleting ==> s.labs[k].finalizer
  }

  lemma OutsideKept(s: Store, a: Action)
    requires Kept(s)
    ensures Kept(Perform(s, OutsideWrite(s, a)))
  {
  }

  lemma ClusterKept(s: Store, k: Key, p: C.Pass, fault: bool)
    requires Kept(s)
    ensures Kept(Perform(s, C.Call(s, k, p, fault).write))
  {
    hide C.RunningStatus, C.FailedStatus, C.Counted, C.Dispatch;
    match p {
      case AddFinalizer(_) =>
      case RemoveFinalizer(_) =>
      case DeleteExpired(_) =>
      case WriteStatus(_, _, _) =>
      case WriteFailed(_, _) =>
      case _ =>
    }
  }

  lemma InstKept(s: Store, i: Key, p: I.Pass, fault: bool)
    requires Kept(s)
    ensures Kept(Perform(s, I.Call(s, i, p, fault).write))
  {
    InstKeepsDeleting(s, i, p, fault, i);
    hide I.Call;
  }

  lemma DoKept(s: System, a: Action)
    requires Kept(s.st)
    ensures Kept(Do(s, a).st)
  {
    DoPerforms(s, a);
    OutsideKept(s.st, a);
    match a {
      case CallCluster(k, fault) => if k in s.cp { ClusterKept(s.st, k, s.cp[k], fault); }
      case CallInst(i, fault) => if i in s.ip { InstKept(s.st, i, s.ip[i], fault); }
      case _ =>
    }
  }

  lemma {:induction false} RunKept(s: System, acts: seq<Action>)
    requires Kept(s.st)
    ensures Kept(Run(s, acts).st)
    decreases |acts|
  {
    hide Do, Kept;
    if acts != [] {
      DoKept(s, acts[0]);
      RunKept(Do(s, acts[0]), acts[1..]);
    }
  }

  lemma RunThree(s: System, a: Action, b: Action, c: Action)
    ensures Run(s, [a, b, c]) == Do(Do(Do(s, a), b), c)
  {
    hide Do;
    assert [a, b, c][1..] == [b, c] && [b, c][1..] == [c] && [c][1..] == [];
    assert Run(Do(Do(Do(s, a), b), c), []) == Do(Do(Do(s, a), b), c);
    assert Run(Do(Do(s, a), b), [c]) == Run(Do(Do(Do(s, a), b), c), []);
    assert Run(Do(s, a), [b, c]) == Run(Do(Do(s, a), b), [c]);
  }

  /** Three failing calls end any pass and change nothing but the queue. */
  lemma PassEnds(s: System, k: Key) returns (acts: seq<Action>)
    ensures |acts| == 3 && forall j :: 0 <= j < |acts| ==> !acts[j].StartCluster?
    ensures var t := Run(s, acts);
            && t.st.names == s.st.names && t.st.labs == s.st.labs && t.st.spaces == s.st.spaces
            && t.st.insts == s.st.insts && t.st.now == s.st.now && t.cp == s.cp - {k} && t.ip == s.ip
  {
    var c := CallCluster(k, true);
    acts := [c, c, c];
    RunThree(s, c, c, c);
    CallFails(s, k);
    CallFails(Do(s, c), k);
    CallFails(Do(Do(s, c), c), k);
    hide Do;
    var t := Do(Do(Do(s, c), c), c);
    assert k !in t.cp;
    assert t.cp == t.cp - {k};
  }

  /** Failing calls left until a pass ends. */
  ghost function FailuresLeft(cp: map<Key, C.Pass>, k: Key): nat
  {
    if k in cp then Failures(cp[k]) else 0
  }

  ghost function Failures(p: C.Pass): nat
    ensures 1 <= Failures(p) <= 3
  {
    match p
    case ReadClock(_, _) => 3
    case ApplyNamespace(_, _, _) => 2 case ApplyQuota(_, _, _) => 2
    case ApplyNetwork(_, _, _) => 2 case ListInstances(_, _, _) => 2
    case _ => 1
  }

  lemma CallFails(s: System, k: Key)
    ensures var t := Do(s, CallCluster(k, true));
            && t.st.names == s.st.names && t.st.labs == s.st.labs && t.st.spaces == s.st.spaces
            && t.st.insts == s.st.insts && t.st.now == s.st.now && t.ip == s.ip && t.cp - {k} == s.cp - {k}
            && FailuresLeft(t.cp, k) <= if k in s.cp then FailuresLeft(s.cp, k) - 1 else 0
  {
    if k in s.cp {
      FailureNears(s.st, k, s.cp[k]);
      SettleQueue(s, k, C.Call(s.st, k, s.cp[k], true));
      hide C.Call, SettleCluster, Failures;
      var t := Do(s, CallCluster(k, true));
      assert t.cp - {k} == s.cp - {k};
    }
  }

  lemma FailureNears(s: Store, k: Key, p: C.Pass)
    ensures var out := C.Call(s, k, p, true);
            out.write == Nothing && (out.then_.Next? ==> Failures(out.then_.pass) < Failures(p))
  {
      match p {
        case Get => case AddFinalizer(_) => case DeleteTarget(_) => case CheckTarget(_) =>
        case RemoveFinalizer(_) => case DeleteExpired(_) => case ReadClock(_, _) =>
        case ApplyNamespace(_, _, _) => case ApplyQuota(_, _, _) => case ApplyNetwork(_, _, _) =>
        case ListInstances(_, _, _) => case WriteStatus(_, _, _) => case WriteFailed(_, _) =>
      }
  }

  /** A pass over a ClusterLab under deletion, up to the Delete of its namespace. */
  lemma PassDeletes(s: System, k: Key)
    requires k !in s.cp && k in s.st.labs && s.st.labs[k].deleting && s.st.labs[k].finalizer
    requires TargetRight(s.st, k, s.st.labs[k].status)
    ensures var n := s.st.Target(k.name);
            var t := Run(s, [StartCluster(k), CallCluster(k, false), CallCluster(k, false)]);
            && t.cp == s.cp[k := C.CheckTarget(s.st.labs[k])]
            && t.st.names == s.st.names && t.st.labs == s.st.labs
            && t.st.insts == s.st.insts && t.st.now == s.st.now && t.ip == s.ip
            && t.st.spaces == if n in s.st.spaces then s.st.spaces[n := s.st.spaces[n].(terminating := true)]
                              else s.st.spaces
  {
    var c := CallCluster(k, false);
    RunThree(s, StartCluster(k), c, c);
    var u := Do(s, StartCluster(k));
    var v := Do(u, c);
    assert v.cp[k] == C.DeleteTarget(s.st.labs[k]);
    var t := Do(v, c);
    assert t.cp == s.cp[k := C.CheckTarget(s.st.labs[k])];
  }

  /** With the namespace gone, the rest of the pass lets the ClusterLab go. */
  lemma PassReleases(s: System, k: Key)
    requires k in s.st.labs && s.st.labs[k].deleting && TargetRight(s.st, k, s.st.labs[k].status)
    requires k in s.cp && s.cp[k] == C.CheckTarget(s.st.labs[k]) && s.st.Target(k.name) !in s.st.spaces
    ensures var t := Run(s, [CallCluster(k, false), CallCluster(k, false)]);
            && t.st.names == s.st.names && t.st.labs == s.st.labs - {k} && t.st.spaces == s.st.spaces
            && t.st.insts == s.st.insts && t.st.now == s.st.now && t.cp == s.cp - {k} && t.ip == s.ip
  {
    var c := CallCluster(k, false);
    var u := Do(s, c);
    assert u.cp[k] == C.RemoveFinalizer(s.st.labs[k]);
    assert [c, c][1..] == [c] && [c][1..] == [];
    assert Run(u, [c]) == Run(Do(u, c), []);
  }

  lemma SpaceEnds(s: System, n: string)
    requires n in s.st.spaces && s.st.spaces[n].terminating && s.st.spaces[n].objects == map[]
    ensures Run(s, [FinishSpace(n)]) == s.(st := s.st.(spaces := s.st.spaces - {n}))
  {
    assert [FinishSpace(n)] == [FinishSpace(n)] + [];
    RunCons(s, FinishSpace(n), []);
    RunNone(Do(s, FinishSpace(n)));
  }

  lemma ObjectGoes(s: System, n: string, o: ObjectKey)
    requires n in s.st.spaces && o in s.st.spaces[n].objects
    ensures var objects := s.st.spaces[n].objects - {o};
            var t := Do(s, RemoveWorkload(n, o));
            && t == s.(st := s.st.(spaces := s.st.spaces[n := s.st.spaces[n].(objects := objects)]))
            && t.st.spaces - {n} == s.st.spaces - {n}
            && |objects| == |s.st.spaces[n].objects| - 1
  {
    var objects := s.st.spaces[n].objects - {o};
    assert objects.Keys == s.st.spaces[n].objects.Keys - {o};
    assert |objects| == |objects.Keys| && |s.st.spaces[n].objects| == |s.st.spaces[n].objects.Keys|;
  }

  /** The namespace controller empties a terminating namespace and drops it. */
  lemma {:induction false} SpaceDrains(s: System, n: string) returns (acts: seq<Action>)
    requires n in s.st.spaces && s.st.spaces[n].terminating
    ensures |acts| == |s.st.spaces[n].objects| + 1 && forall j :: 0 <= j < |acts| ==> !acts[j].StartCluster?
    ensures Run(s, acts) == s.(st := s.st.(spaces := s.st.spaces - {n}))
    decreases |s.st.spaces[n].objects|
  {
    var objects := s.st.spaces[n].objects;
    if objects == map[] {
      acts := [FinishSpace(n)];
      SpaceEnds(s, n);
    } else {
      var o :| o in objects;
      var t := Do(s, RemoveWorkload(n, o));
      ObjectGoes(s, n, o);
      hide Do, Run;
      var rest := SpaceDrains(t, n);
      acts := [RemoveWorkload(n, o)] + rest;
      RunCons(s, RemoveWorkload(n, o), rest);
    }
  }

  /** The ClusterLab and its namespace are gone, and nothing else. */
  ghost predicate Gone(s: System, t: System, k: Key)
  {
    && t.st.names == s.st.names && t.st.insts == s.st.insts && t.st.now == s.st.now
    && t.st.labs == s.st.labs - {k} && t.st.spaces == s.st.spaces - {s.st.Target(k.name)}
    && t.cp == s.cp - {k} && t.ip == s.ip
  }

  /** From the Delete call on: the namespace empties and goes, then the pass ends its work. */
  lemma Releases(s: System, k: Key) returns (acts: seq<Action>)
    requires k in s.st.labs && s.st.labs[k].deleting && TargetRight(s.st, k, s.st.labs[k].status)
    requires k in s.cp && s.cp[k] == C.CheckTarget(s.st.labs[k])
    requires s.st.Target(k.name) in s.st.spaces ==> s.st.spaces[s.st.Target(k.name)].terminating
    ensures |acts| <= Left(s.st, k) + 1 && Gone(s, Run(s, acts), k)
    ensures forall j :: 0 <= j < |acts| ==> !acts[j].StartCluster?
  {
    hide Run, Do;
    var n := s.st.Target(k.name);
    var last := [CallCluster(k, false), CallCluster(k, false)];
    if n in s.st.spaces {
      var drains := SpaceDrains(s, n);
      PassReleases(Run(s, drains), k);
      RunAppend(s, drains, last);
      acts := drains + last;
    } else {
      PassReleases(s, k);
      acts := last;
    }
  }

  /** Marking the namespace first makes no difference to what is left. */
  lemma GoneAfter(s: System, v: System, t: System, k: Key)
    requires v.st.names == s.st.names && v.st.labs == s.st.labs && v.st.insts == s.st.insts && v.st.now == s.st.now
    requires v.ip == s.ip && v.cp - {k} == s.cp - {k}
    requires var n := s.st.Target(k.name);
             v.st.spaces == if n in s.st.spaces then s.st.spaces[n := s.st.spaces[n].(terminating := true)]
                            else s.st.spaces
    requires Gone(v, t, k)
    ensures Gone(s, t, k) && Left(v.st, k) == Left(s.st, k)
  {
    var n := s.st.Target(k.name);
    assert v.st.spaces - {n} == s.st.spaces - {n};
  }

  lemma Completes(s: System, k: Key) returns (acts: seq<Action>)
    requires k in s.st.labs && s.st.labs[k].deleting && s.st.labs[k].finalizer
    requires TargetRight(s.st, k, s.st.labs[k].status)
    ensures |acts| <= Left(s.st, k) + 7 && Gone(s, Run(s, acts), k)
  {
    hide Run, Do, Gone, Left;
    var ends := PassEnds(s, k);
    var u := Run(s, ends);
    PassDeletes(u, k);
    var deletes := [StartCluster(k), CallCluster(k, false), CallCluster(k, false)];
    var v := Run(u, deletes);
    var rest := Releases(v, k);
    GoneAfter(s, v, Run(v, rest), k);
    acts := ends + (deletes + rest);
    RunAppend(s, ends, deletes + rest);
    RunAppend(u, deletes, rest);
  }

  /**
   Deletion never gets stuck: from any state of any run, one pass, the namespace controller
   and the passes in flight can take a ClusterLab under deletion, and its namespace, away.
   */
  lemma DeletionCompletes(s: System, acts: seq<Action>, k: Key) returns (more: seq<Action>)
    requires Initial(s)
    requires var t := Run(s, acts).st; k in t.labs && t.labs[k].deleting
    ensures |more| <= Left(Run(s, acts).st, k) + 7 && Gone(Run(s, acts), Run(s, acts + more), k)
  {
    assert Inv(s.st, s.cp) && Kept(s.st);
    hide Run, Inv, Kept;
    RunKeeps(s, acts);
    RunKept(s, acts);
    StoredSound(Run(s, acts), k);
    more := Completes(Run(s, acts), k);
    RunAppend(s, acts, more);
  }

  lemma RunNone(s: System)
    ensures Run(s, []) == s
  {
  }

  lemma StoredSound(s: System, k: Key)
    requires Inv(s.st, s.cp) && Kept(s.st) && k in s.st.labs && s.st.labs[k].deleting
    ensures s.st.labs[k].finalizer && TargetRight(s.st, k, s.st.labs[k].status)
  {
  }
}
