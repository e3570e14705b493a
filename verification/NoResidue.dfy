/**
 No residue: a target namespace exists only while the ClusterLab that created it is stored
 with its finalizer. It holds in every run, with calls interleaved in any way, any call
 failing, users doing anything, and even if two ClusterLabs share a target name.
 */
module NoResidue {
  import opened LabStore
  import opened LabSystem
  import C = ClusterLabController
  import I = InstanceLabController

  ghost predicate TargetRight(s: Store, k: Key, status: ClusterStatus)
  {
    status.target == "" || status.target == s.Target(k.name)
  }

  /** The ClusterLab `k` is stored with its finalizer and derives the name `n`. */
  ghost predicate Houses(s: Store, k: Key, n: string)
  {
    k in s.labs && s.labs[k].finalizer && s.Target(k.name) == n
  }

  ghost predicate Homeless(s: Store, k: Key)
  {
    forall n :: n in s.spaces ==> s.spaces[n].home != k
  }

  /** What a pass in flight may rely on. */
  ghost predicate PassSound(s: Store, k: Key, p: C.Pass)
  {
    && (p.DeleteTarget? || p.CheckTarget? ==> TargetRight(s, k, p.lab.status))
    && (p.AddFinalizer? || p.RemoveFinalizer? || C.Provisions(p) ==> TargetRight(s, k, p.lab.status))
    && (C.Provisions(p) ==> TargetRight(s, k, p.mem))
    && (C.Provisions(p) ==> p.lab.finalizer)
    && (C.Guarded(p) ==> k in s.labs && s.labs[k].finalizer)
    && (p.RemoveFinalizer? ==> Homeless(s, k))
  }

  ghost predicate Inv(s: Store, cp: map<Key, C.Pass>)
  {
    && (forall k :: k in s.labs ==> TargetRight(s, k, s.labs[k].status))
    && (forall n :: n in s.spaces ==> Houses(s, s.spaces[n].home, n))
    && (forall k :: k in cp ==> PassSound(s, k, cp[k]))
  }

  /** Writes that cannot hurt: each keeps the finalizer where something depends on it. */
  ghost predicate Safe(s: Store, cp: map<Key, C.Pass>, w: Write)
  {
    match w
    case PutLab(k, lab) =>
      && TargetRight(s, k, lab.status)
      && (lab.finalizer || (Homeless(s, k) && (k in cp ==> !C.Guarded(cp[k]))))
    case DropLab(k) => Homeless(s, k) && (k in cp ==> !C.Guarded(cp[k]))
    case PutSpace(n, space) =>
      Houses(s, space.home, n) && (space.home in cp ==> !cp[space.home].RemoveFinalizer?)
    case _ => true
  }

  lemma WriteKeepsHouses(s: Store, cp: map<Key, C.Pass>, w: Write)
    requires Inv(s, cp) && Safe(s, cp, w)
    ensures var st := Perform(s, w); forall n :: n in st.spaces ==> Houses(st, st.spaces[n].home, n)
  {
  }

  lemma WriteKeepsPasses(s: Store, cp: map<Key, C.Pass>, w: Write)
    requires Inv(s, cp) && Safe(s, cp, w)
    ensures forall k :: k in cp ==> PassSound(Perform(s, w), k, cp[k])
  {
    forall k | k in cp ensures PassSound(Perform(s, w), k, cp[k]) {
      assert PassSound(s, k, cp[k]);
    }
  }

  lemma WriteKeeps(s: Store, cp: map<Key, C.Pass>, w: Write)
    requires Inv(s, cp) && Safe(s, cp, w)
    ensures Inv(Perform(s, w), cp)
  {
    WriteKeepsHouses(s, cp, w);
    WriteKeepsPasses(s, cp, w);
  }

  lemma InstWriteSafe(s: Store, cp: map<Key, C.Pass>, i: Key, p: I.Pass, fault: bool)
    requires Inv(s, cp)
    ensures Safe(s, cp, I.Call(s, i, p, fault).write)
  {
  }

  lemma OutsideWriteSafe(s: Store, cp: map<Key, C.Pass>, a: Action)
    requires Inv(s, cp)
    ensures Safe(s, cp, OutsideWrite(s, a))
  {
  }

  lemma ClusterPassSound(s: Store, k: Key, p: C.Pass, fault: bool)
    requires PassSound(s, k, p)
    requires k in s.labs ==> TargetRight(s, k, s.labs[k].status)
    requires forall n :: n in s.spaces && s.spaces[n].home == k ==> n == s.Target(k.name)
    ensures var out := C.Call(s, k, p, fault).then_; out.Next? ==> PassSound(s, k, out.pass)
  {
  }

  lemma ClusterWriteSafe(s: Store, cp: map<Key, C.Pass>, k: Key, p: C.Pass, fault: bool)
    requires Inv(s, cp) && PassSound(s, k, p)
    requires k in cp ==> C.Call(s, k, p, fault).then_ == C.Next(cp[k])
    ensures Safe(s, cp, C.Call(s, k, p, fault).write)
  {
  }

  lemma AdvanceKeeps(s: Store, cp: map<Key, C.Pass>, k: Key, p: C.Pass)
    requires Inv(s, cp) && PassSound(s, k, p)
    ensures Inv(s, cp[k := p])
  {
  }

  lemma EndKeeps(s: Store, cp: map<Key, C.Pass>, k: Key)
    requires Inv(s, cp)
    ensures Inv(s, cp - {k})
  {
  }

  /** A pass moves on first, then its write is made, then the queue is told. */
  lemma ClusterKeeps(s: System, k: Key, fault: bool)
    requires Inv(s.st, s.cp) && k in s.cp
    ensures var t := SettleCluster(s, k, C.Call(s.st, k, s.cp[k], fault)); Inv(t.st, t.cp)
  {
    hide C.Call, Perform, Safe, PassSound, Inv;
    var out := C.Call(s.st, k, s.cp[k], fault);
    var t := SettleCluster(s, k, out);
    PassOf(s.st, s.cp, k);
    ClusterPassSound(s.st, k, s.cp[k], fault);
    if out.then_.Next? {
      AdvanceKeeps(s.st, s.cp, k, out.then_.pass);
    } else {
      EndKeeps(s.st, s.cp, k);
    }
    ClusterWriteSafe(s.st, t.cp, k, s.cp[k], fault);
    WriteKeeps(s.st, t.cp, out.write);
    QueueKeeps(Perform(s.st, out.write), t.st, t.cp);
  }

  lemma PassOf(s: Store, cp: map<Key, C.Pass>, k: Key)
    requires Inv(s, cp) && k in cp
    ensures PassSound(s, k, cp[k])
    ensures k in s.labs ==> TargetRight(s, k, s.labs[k].status)
    ensures forall n :: n in s.spaces && s.spaces[n].home == k ==> n == s.Target(k.name)
  {
  }

  /** Queue and clock do not matter. */
  lemma QueueKeeps(s: Store, st: Store, cp: map<Key, C.Pass>)
    requires Inv(s, cp)
    requires st.names == s.names && st.labs == s.labs && st.spaces == s.spaces
    ensures Inv(st, cp)
  {
    forall k | k in cp ensures PassSound(st, k, cp[k]) {
      assert PassSound(s, k, cp[k]);
    }
  }

  lemma DoKeeps(s: System, a: Action)
    requires Inv(s.st, s.cp)
    ensures var t := Do(s, a); Inv(t.st, t.cp)
  {
    hide C.Call, I.Call, Perform, Safe;
    match a {
      case CallCluster(k, fault) => if k in s.cp { ClusterKeeps(s, k, fault); }
      case CallInst(i, fault) =>
        if i in s.ip {
          InstWriteSafe(s.st, s.cp, i, s.ip[i], fault);
          WriteKeeps(s.st, s.cp, I.Call(s.st, i, s.ip[i], fault).write);
        }
      case Tick(_) => QueueKeeps(s.st, Do(s, a).st, s.cp);
      case Fire(_) => QueueKeeps(s.st, Do(s, a).st, s.cp);
      case StartInst(_) =>
      case StartCluster(k) =>
        if k !in s.cp { QueueKeeps(s.st, Do(s, a).st, s.cp[k := C.Get]); }
      case _ =>
        OutsideWriteSafe(s.st, s.cp, a);
        WriteKeeps(s.st, s.cp, OutsideWrite(s.st, a));
    }
  }

  lemma {:induction false} RunKeeps(s: System, acts: seq<Action>)
    requires Inv(s.st, s.cp)
    ensures var t := Run(s, acts); Inv(t.st, t.cp)
    decreases |acts|
  {
    hide Do;
    if acts != [] {
      DoKeeps(s, acts[0]);
      RunKeeps(Do(s, acts[0]), acts[1..]);
    }
  }

  /** In every run from an empty cluster, a target namespace has its ClusterLab behind it. */
  lemma NoResidue(s: System, acts: seq<Action>, n: string)
    requires Initial(s)
    requires n in Run(s, acts).st.spaces
    ensures var t := Run(s, acts).st;
            exists k :: k in t.labs && t.labs[k].finalizer && t.Target(k.name) == n
  {
    hide Run;
    RunKeeps(s, acts);
    var t := Run(s, acts).st;
    assert Houses(t, t.spaces[n].home, n);
  }
}
