/**
 Exactly when one reconcile of an InstanceLab opens the gate: it looks at the parent's phase and
 at nothing else, so whether the namespace is equipped makes no difference to what it does.
 */
module GatePass {
  import opened LabStore
  import opened InstanceLabReconciler
  import I = InstanceLabController

  /** A workload in an active namespace that lacks its quota or its policy. */
  ghost predicate Ungated(s: Store, n: string)
  {
    Bare(s, n) && s.spaces[n].objects != map[]
  }

  /** An active namespace without quota or without policy. */
  ghost predicate Bare(s: Store, n: string)
  {
    && n in s.spaces && !s.spaces[n].terminating
    && (s.spaces[n].hard.None? || s.spaces[n].policy.None?)
  }

  /** Only the objects of namespaces differ. */
  ghost predicate SameSpaces(s: Store, t: Store)
  {
    && t.spaces.Keys == s.spaces.Keys
    && forall n :: n in s.spaces ==> t.spaces[n] == s.spaces[n].(objects := t.spaces[n].objects)
  }

  ghost predicate Grows(s: Store, t: Store, n: string)
  {
    n in s.spaces && n in t.spaces ==> s.spaces[n].objects.Keys <= t.spaces[n].objects.Keys
  }

  /** A pass that will touch nothing in `n` any more. */
  predicate Elsewhere(p: I.Pass, n: string)
  {
    (p.Place? && p.target != n) || p.WriteStatus? || p.WriteFailed? || p.WritePending? || p.AddFinalizer?
  }

  /** The only namespace write of a call changes the objects of one namespace. */
  lemma CallWrites(s: Store, i: Key, p: I.Pass, fault: bool)
    ensures var w := I.Call(s, i, p, fault).write;
            && (w.PutSpace? ==> w.n in s.spaces && w.space == s.spaces[w.n].(objects := w.space.objects))
            && !w.DropSpace?
            && (w.PutSpace? ==> p.Place? || p.BulkDelete?)
            && (w.PutSpace? && p.Place? ==> w.n == p.target && s.spaces[w.n].objects.Keys <= w.space.objects.Keys)
            && (w.PutSpace? && p.BulkDelete? ==> w.space.objects.Keys <= s.spaces[w.n].objects.Keys)
  {
    hide I.ObservedStatus, I.FailedStatus, I.PendingStatus, I.Wanted, I.Dispatch, I.Gate;
    match p {
      case Place(_, _, _, _) =>
      case BulkDelete(_, _, _) =>
      case _ =>
    }
  }

  /** A pass that provisions, cleans up, or is done with `n` stays so. */
  lemma CallGoesOn(s: Store, i: Key, p: I.Pass, fault: bool, n: string)
    ensures var t := I.Call(s, i, p, fault).then_;
            t.Next? ==>
              && (I.Provisions(p) ==> I.Provisions(t.pass))
              && (I.Cleans(p) ==> I.Cleans(t.pass))
              && (Elsewhere(p, n) ==> Elsewhere(t.pass, n))
  {
    hide I.ObservedStatus, I.FailedStatus, I.PendingStatus, I.Wanted;
    match p {
      case Get => case AddFinalizer(_) => case FindCleanupTarget(_) => case BulkDelete(_, _, _) =>
      case RemoveFinalizer(_) => case GetParent(_) => case SetOwner(_, _) => case WritePending(_) =>
      case Place(_, _, _, _) => case WriteStatus(_, _) => case WriteFailed(_, _) =>
    }
  }

  lemma CallKeepsSpaces(s: Store, i: Key, p: I.Pass, fault: bool, n: string)
    ensures var t := Perform(s, I.Call(s, i, p, fault).write);
            && SameSpaces(s, t)
            && (I.Provisions(p) ==> Grows(s, t, n))
            && (I.Cleans(p) ==> Grows(t, s, n))
            && (Elsewhere(p, n) && n in s.spaces ==> t.spaces[n] == s.spaces[n])
  {
    CallWrites(s, i, p, fault);
    hide I.Call;
  }

  /** The same for the rest of a pass. */
  lemma {:induction false} PassKeepsSpaces(s: Store, i: Key, p: I.Pass, faults: nat -> bool, calls: nat, n: string)
    ensures var t := I.Finish(s, i, p, faults, calls).st;
            && SameSpaces(s, t)
            && (I.Provisions(p) ==> Grows(s, t, n))
            && (I.Cleans(p) ==> Grows(t, s, n))
            && (Elsewhere(p, n) && n in s.spaces ==> t.spaces[n] == s.spaces[n])
    decreases I.Rank(p)
  {
    hide I.Call, Perform;
    CallKeepsSpaces(s, i, p, faults(calls), n);
    CallGoesOn(s, i, p, faults(calls), n);
    var out := I.Call(s, i, p, faults(calls));
    if out.then_.Next? {
      PassKeepsSpaces(Perform(s, out.write), i, out.then_.pass, faults,
                      if I.Silent(p) then calls else calls + 1, n);
    }
  }

  /** The first child that a pass creates: the PVC, if there is one, or the Pod. */
  function First(inst: InstanceLab): nat { if I.Wanted(inst.spec, Pvc) then 0 else 1 }

  lemma SkipsToFirst(s: Store, i: Key, inst: InstanceLab, target: string, faults: nat -> bool, calls: nat)
    ensures I.Finish(s, i, I.Place(inst, target, 0, PodUnknown), faults, calls) ==
            I.Finish(s, i, I.Place(inst, target, First(inst), PodUnknown), faults, calls)
  {
    hide I.Finish;
    AtPlace(s, i, inst, target, 0, PodUnknown, faults, calls);
  }

  lemma FirstIsWanted(inst: InstanceLab)
    ensures First(inst) < 4 && I.Wanted(inst.spec, I.PLACE_ORDER[First(inst)])
  {
  }

  /** From the gate on: an empty active target gets a workload exactly if the first call goes through. */
  lemma PlacesExactly(s: Store, i: Key, inst: InstanceLab, n: string, faults: nat -> bool, calls: nat)
    requires n in s.spaces && !s.spaces[n].terminating && s.spaces[n].objects == map[]
    ensures var t := I.Finish(s, i, I.Place(inst, n, 0, PodUnknown), faults, calls).st;
            n in t.spaces && (t.spaces[n].objects != map[] <==> !faults(calls))
  {
    hide I.Finish, I.Wanted, Perform, ApplyWorkload;
    var stage := First(inst);
    var kind := I.PLACE_ORDER[stage];
    var o := I.Child(s, i, kind);
    SkipsToFirst(s, i, inst, n, faults, calls);
    FirstIsWanted(inst);
    AtPlace(s, i, inst, n, stage, PodUnknown, faults, calls);
    if faults(calls) {
      PassKeepsSpaces(s, i, I.WriteFailed(inst, I.FailReason(kind)), faults, calls + 1, n);
    } else {
      var t := Perform(s, ApplyWorkload(s, n, o, i, I.ParentKey(i, inst)));
      var seen := if kind == Pod then PhaseAt(s, n, o) else PodUnknown;
      AppliedThere(s, i, inst, n, o);
      PassKeepsSpaces(t, i, I.Place(inst, n, stage + 1, seen), faults, calls + 1, n);
    }
  }

  lemma AppliedThere(s: Store, i: Key, inst: InstanceLab, n: string, o: ObjectKey)
    requires AcceptsWorkload(s, n, o)
    ensures var t := Perform(s, ApplyWorkload(s, n, o, i, I.ParentKey(i, inst)));
            n in t.spaces && o in t.spaces[n].objects
  {
  }

  /** What makes a reconcile of `i` place its first child in `n`. */
  ghost predicate Places(s: Store, i: Key, faults: nat -> bool, n: string)
  {
    && i in s.insts && !s.insts[i].deleting && s.insts[i].finalizer
    && var inst := s.insts[i];
       var k := I.ParentKey(i, inst);
       && k in s.labs && s.labs[k].status.phase == Running && I.TargetOf(s, s.labs[k], k.name) == n
       && !faults(0) && !faults(1) && !faults(if I.Ownable(inst) then 3 else 2)
  }

  /** A reconcile that does not get past the gate to `n` adds nothing there. */
  lemma {:induction false} OtherPassAddsNone(s: Store, i: Key, faults: nat -> bool, n: string)
    requires i !in s.insts || s.insts[i].deleting || !s.insts[i].finalizer || faults(0)
    requires n in s.spaces && s.spaces[n].objects == map[]
    ensures var t := I.Finish(s, i, I.Get, faults, 0).st; n in t.spaces && t.spaces[n].objects == map[]
  {
    hide I.Finish;
    Unfold(s, i, I.Get, faults, 0);
    if i in s.insts && !faults(0) {
      var inst := s.insts[i];
      if inst.deleting {
        PassKeepsSpaces(s, i, I.FindCleanupTarget(inst), faults, 1, n);
      } else {
        PassKeepsSpaces(s, i, I.AddFinalizer(inst), faults, 1, n);
      }
    }
  }

  /** A reconcile past the read of a live InstanceLab with the finalizer. */
  lemma LivePassExactly(s: Store, i: Key, faults: nat -> bool, n: string)
    requires i in s.insts && !s.insts[i].deleting && s.insts[i].finalizer && !faults(0)
    requires n in s.spaces && !s.spaces[n].terminating && s.spaces[n].objects == map[]
    ensures var t := I.Finish(s, i, I.Get, faults, 0).st;
            n in t.spaces && (t.spaces[n].objects != map[] <==> Places(s, i, faults, n))
  {
    hide I.Finish;
    var inst := s.insts[i];
    var k := I.ParentKey(i, inst);
    Unfold(s, i, I.Get, faults, 0);
    Unfold(s, i, I.GetParent(inst), faults, 1);
    if faults(1) {
    } else if k !in s.labs {
      PassKeepsSpaces(s, i, I.WritePending(inst), faults, 2, n);
    } else {
      var parent := s.labs[k];
      var ok := I.Ownable(inst) && !faults(2);
      var held := if ok then I.Owned(inst, parent) else inst;
      var u := if ok then Perform(s, UpdateInst(i, held)) else s;
      var calls := if I.Ownable(inst) then 3 else 2;
      AtOwner(s, i, inst, parent, faults, 2);
      assert u.spaces == s.spaces;
      if parent.status.phase == Running && I.TargetOf(s, parent, k.name) == n {
        PlacesExactly(u, i, held, n, faults, calls);
      } else {
        PassKeepsSpaces(u, i, I.Gate(s, held, parent), faults, calls, n);
      }
    }
  }

  /**
   For every store, every InstanceLab and every way its calls can fail: a reconcile opens the gate
   in `n` exactly if `n` is active, empty, and bare, and is the target of a parent in phase Running,
   and the reads and the first creation go through.
   */
  lemma GateOpensExactly(s: Store, i: Key, faults: nat -> bool, n: string)
    ensures var t := I.Finish(s, i, I.Get, faults, 0).st;
            !Ungated(s, n) && Ungated(t, n) <==>
            Bare(s, n) && s.spaces[n].objects == map[] && Places(s, i, faults, n)
  {
    hide I.Finish, Places;
    PassKeepsSpaces(s, i, I.Get, faults, 0, n);
    if Bare(s, n) && s.spaces[n].objects == map[] {
      if i in s.insts && !s.insts[i].deleting && s.insts[i].finalizer && !faults(0) {
        LivePassExactly(s, i, faults, n);
      } else {
        OtherPassAddsNone(s, i, faults, n);
        NoPlace(s, i, faults, n);
      }
    }
  }

  lemma NoPlace(s: Store, i: Key, faults: nat -> bool, n: string)
    requires i !in s.insts || s.insts[i].deleting || !s.insts[i].finalizer || faults(0)
    ensures !Places(s, i, faults, n)
  {
  }
}
