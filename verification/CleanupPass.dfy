/**
 Exactly what one cleanup pass of an InstanceLab deletes, whichever of its calls fail. The
 results of the four bulk deletes are dropped, and the namespace is where the reference leads
 at the time, so what stays behind can be told object by object.
 */
module CleanupPass {
  import opened LabStore
  import opened InstanceLabReconciler
  import I = InstanceLabController

  /** The place of a kind in the cleanup order. */
  function Position(kind: Kind): (j: nat)
    ensures j < 4 && I.CLEANUP_ORDER[j] == kind
    ensures forall l :: 0 <= l < 4 && I.CLEANUP_ORDER[l] == kind ==> l == j
  {
    match kind case Ingress => 0 case Service => 1 case Pod => 2 case Pvc => 3
  }

  /** Where a pass cleans up: the parent's target, or the derived one if the parent is not read. */
  function CleanupTarget(s: Store, i: Key, unread: bool): string
    requires i in s.insts
  {
    var k := I.ParentKey(i, s.insts[i]);
    if unread || k !in s.labs then s.Target(k.name) else I.TargetOf(s, s.labs[k], k.name)
  }

  /** The object is there and as it was. */
  ghost predicate Kept(s: Store, t: Store, n: string, o: ObjectKey)
    requires n in s.spaces && o in s.spaces[n].objects
  {
    n in t.spaces && o in t.spaces[n].objects && t.spaces[n].objects[o] == s.spaces[n].objects[o]
  }

  lemma DeleteKeeps(s: Store, target: string, kind: Kind, instance: string, n: string, o: ObjectKey)
    requires n in s.spaces && o in s.spaces[n].objects
    ensures var t := Perform(s, DeleteAllOf(s, target, kind, instance));
            && n in t.spaces && t.spaces[n].terminating == s.spaces[n].terminating
            && t.insts == s.insts && t.names == s.names
            && (o in t.spaces[n].objects <==> !(n == target && Selected(s.spaces[n].objects, o, kind, instance)))
            && (o in t.spaces[n].objects ==> Kept(s, t, n, o))
  {
  }

  lemma FinalizerGoes(s: Store, i: Key, inst: InstanceLab, faults: nat -> bool, calls: nat)
    requires CurrentInst(s, i, inst) && inst.deleting
    ensures var t := I.Finish(s, i, I.RemoveFinalizer(inst), faults, calls).st;
            t.spaces == s.spaces && t.names == s.names && (i in t.insts <==> faults(calls))
  {
    hide I.Finish;
    Unfold(s, i, I.RemoveFinalizer(inst), faults, calls);
  }

  /** From a stage on: an object goes exactly if it is selected and the delete of its kind goes through. */
  lemma {:induction false} BulkExactly(s: Store, i: Key, inst: InstanceLab, target: string, stage: nat,
                                       faults: nat -> bool, calls: nat, n: string, o: ObjectKey)
    requires stage < 4 && CurrentInst(s, i, inst) && inst.deleting
    requires n in s.spaces && o in s.spaces[n].objects
    ensures var t := I.Finish(s, i, I.BulkDelete(inst, target, stage), faults, calls).st;
            && n in t.spaces && t.spaces[n].terminating == s.spaces[n].terminating && t.names == s.names
            && (o in t.spaces[n].objects <==>
                  !(n == target && s.spaces[n].objects[o].instance == i.name
                    && stage <= Position(o.kind) && !faults(calls + Position(o.kind) - stage)))
            && (o in t.spaces[n].objects ==> Kept(s, t, n, o))
            && (i in t.insts <==> faults(calls + 4 - stage))
    decreases 4 - stage
  {
    hide I.Finish, DeleteAllOf, Perform;
    AtBulk(s, i, inst, target, stage, faults, calls);
    DeleteKeeps(s, target, I.CLEANUP_ORDER[stage], i.name, n, o);
    var t := if faults(calls) then s else Perform(s, DeleteAllOf(s, target, I.CLEANUP_ORDER[stage], i.name));
    if stage == 3 {
      FinalizerGoes(t, i, inst, faults, calls + 1);
    } else if o in t.spaces[n].objects {
      BulkExactly(t, i, inst, target, stage + 1, faults, calls + 1, n, o);
    } else {
      StaysGone(t, i, inst, target, stage + 1, faults, calls + 1, n, o);
    }
  }

  lemma {:induction false} StaysGone(s: Store, i: Key, inst: InstanceLab, target: string, stage: nat,
                                     faults: nat -> bool, calls: nat, n: string, o: ObjectKey)
    requires stage < 4 && CurrentInst(s, i, inst) && inst.deleting
    requires n in s.spaces && o !in s.spaces[n].objects
    ensures var t := I.Finish(s, i, I.BulkDelete(inst, target, stage), faults, calls).st;
            && n in t.spaces && t.spaces[n].terminating == s.spaces[n].terminating && t.names == s.names
            && o !in t.spaces[n].objects && (i in t.insts <==> faults(calls + 4 - stage))
    decreases 4 - stage
  {
    hide I.Finish;
    AtBulk(s, i, inst, target, stage, faults, calls);
    var t := if faults(calls) then s else Perform(s, DeleteAllOf(s, target, I.CLEANUP_ORDER[stage], i.name));
    if stage == 3 {
      FinalizerGoes(t, i, inst, faults, calls + 1);
    } else {
      StaysGone(t, i, inst, target, stage + 1, faults, calls + 1, n, o);
    }
  }

  /**
   A pass over an InstanceLab under deletion, for every store and every way its calls can fail:
   an object goes exactly if it lies where the pass cleans up, carries the label, and the bulk
   delete of its kind goes through; the InstanceLab goes exactly if the last call does.
   */
  lemma CleanupExactly(s: Store, i: Key, faults: nat -> bool, n: string, o: ObjectKey)
    requires i in s.insts && s.insts[i].deleting && s.insts[i].finalizer && !faults(0)
    requires n in s.spaces && o in s.spaces[n].objects
    ensures var t := I.Finish(s, i, I.Get, faults, 0).st;
            && n in t.spaces && t.spaces[n].terminating == s.spaces[n].terminating && t.names == s.names
            && (o in t.spaces[n].objects <==>
                  !(n == CleanupTarget(s, i, faults(1)) && s.spaces[n].objects[o].instance == i.name
                    && !faults(2 + Position(o.kind))))
            && (o in t.spaces[n].objects ==> Kept(s, t, n, o))
            && (i in t.insts <==> faults(6))
  {
    hide I.Finish, Kept;
    var inst := s.insts[i];
    Unfold(s, i, I.Get, faults, 0);
    Unfold(s, i, I.FindCleanupTarget(inst), faults, 1);
    BulkExactly(s, i, inst, CleanupTarget(s, i, faults(1)), 0, faults, 2, n, o);
  }

  /** An object that carries the label of an InstanceLab that is gone. */
  ghost predicate Orphaned(s: Store, i: Key, n: string, o: ObjectKey)
  {
    i !in s.insts && n in s.spaces && o in s.spaces[n].objects && s.spaces[n].objects[o].instance == i.name
  }

  /**
   So a pass orphans a workload of its InstanceLab exactly if its last call goes through and the
   workload lies elsewhere or the bulk delete of its kind failed.
   */
  lemma OrphansExactly(s: Store, i: Key, faults: nat -> bool, n: string, o: ObjectKey)
    requires i in s.insts && s.insts[i].deleting && s.insts[i].finalizer && !faults(0)
    requires n in s.spaces && o in s.spaces[n].objects && s.spaces[n].objects[o].instance == i.name
    ensures Orphaned(I.Finish(s, i, I.Get, faults, 0).st, i, n, o) <==>
            !faults(6) && (n != CleanupTarget(s, i, faults(1)) || faults(2 + Position(o.kind)))
  {
    hide I.Finish;
    CleanupExactly(s, i, faults, n, o);
  }
}
