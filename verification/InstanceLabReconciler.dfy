/**
 The InstanceLab reconciler as it is written: sequenced API calls on an in-memory copy. Each
 method does what the call machine of InstanceLabController does from the same point on.
 */
module InstanceLabReconciler {
  import opened Prelude
  import opened Conditions
  import opened LabStore
  import opened ApiServers
  import I = InstanceLabController

  /** The object in memory; `read` is how it was last read or written. */
  class InstCopy {
    var read: InstanceLab
    var inst: InstanceLab

    constructor (inst: InstanceLab)
      ensures this.read == inst && this.inst == inst
    {
      this.read := inst;
      this.inst := inst;
    }
  }

  /** One call of the machine. */
  lemma Unfold(s: Store, i: Key, p: I.Pass, faults: nat -> bool, calls: nat)
    ensures var out := I.Call(s, i, p, faults(calls));
            var st := if out.write == Nothing then s else Perform(s, out.write);
            var made := if I.Silent(p) then calls else calls + 1;
            I.Finish(s, i, p, faults, calls) ==
            if out.then_.Next? then I.Finish(st, i, out.then_.pass, faults, made)
            else I.Finished(st, out.then_, made)
  {
    hide I.Call;
  }

  method Reconcile(api: ApiServer, i: Key) returns (verdict: I.Then)
    modifies api
    ensures I.Finished(api.st, verdict, api.calls) == I.Finish(old(api.st), i, I.Get, api.faults, old(api.calls))
  {
    hide I.Finish, Perform;
    Unfold(api.st, i, I.Get, api.faults, api.calls);
    var r := api.GetInst(i);
    match r {
      case Absent => return I.Done(0);
      case Unavailable => return I.Err;
      case Present(inst) =>
        var copy := new InstCopy(inst);
        if !inst.deleting && !inst.finalizer {
          Unfold(api.st, i, I.AddFinalizer(inst), api.faults, api.calls);
          copy.inst := copy.inst.(finalizer := true);
          var ok := api.SaveInst(i, copy.read, copy.inst);
          return if ok then I.Done(0) else I.Err;
        }
        if inst.deleting {
          if !inst.finalizer {
            return I.Done(0);
          }
          verdict := ReconcileFinalizer(api, i, copy);
        } else {
          verdict := ReconcileLive(api, i, copy);
        }
    }
  }

  method ReconcileFinalizer(api: ApiServer, i: Key, copy: InstCopy) returns (verdict: I.Then)
    requires copy.inst == copy.read
    modifies api, copy
    ensures I.Finished(api.st, verdict, api.calls) ==
            I.Finish(old(api.st), i, I.FindCleanupTarget(old(copy.read)), api.faults, old(api.calls))
  {
    hide I.Finish, Perform, DeleteAllOf;
    var inst := copy.inst;
    Unfold(api.st, i, I.FindCleanupTarget(inst), api.faults, api.calls);
    var target := "";
    var parent := api.GetLab(Key(i.origin, inst.spec.ref));
    if parent.Present? {
      target := parent.value.status.target;
    }
    if target == "" {
      target := api.st.Target(inst.spec.ref);
    }
    DeleteWorkloads(api, i, inst, target);
    copy.inst := copy.inst.(finalizer := false);
    Unfold(api.st, i, I.RemoveFinalizer(inst), api.faults, api.calls);
    var ok := api.SaveInst(i, copy.read, copy.inst);
    return if ok then I.Done(0) else I.Err;
  }

  /** Four bulk deletes by label; their results are not looked at. */
  method DeleteWorkloads(api: ApiServer, i: Key, ghost inst: InstanceLab, target: string)
    modifies api
    ensures I.Finish(old(api.st), i, I.BulkDelete(inst, target, 0), api.faults, old(api.calls)) ==
            I.Finish(api.st, i, I.RemoveFinalizer(inst), api.faults, api.calls)
  {
    hide I.Finish, Perform, DeleteAllOf;
    AtBulk(api.st, i, inst, target, 0, api.faults, api.calls);
    api.RemoveAllOf(target, Ingress, i.name);
    AtBulk(api.st, i, inst, target, 1, api.faults, api.calls);
    api.RemoveAllOf(target, Service, i.name);
    AtBulk(api.st, i, inst, target, 2, api.faults, api.calls);
    api.RemoveAllOf(target, Pod, i.name);
    AtBulk(api.st, i, inst, target, 3, api.faults, api.calls);
    api.RemoveAllOf(target, Pvc, i.name);
  }

  /** One bulk delete. */
  lemma AtBulk(s: Store, i: Key, inst: InstanceLab, target: string, stage: nat, faults: nat -> bool, calls: nat)
    requires stage < 4
    ensures var st := if faults(calls) then s
                      else Perform(s, DeleteAllOf(s, target, I.CLEANUP_ORDER[stage], i.name));
            I.Finish(s, i, I.BulkDelete(inst, target, stage), faults, calls) ==
            I.Finish(st, i, if stage == 3 then I.RemoveFinalizer(inst) else I.BulkDelete(inst, target, stage + 1),
                     faults, calls + 1)
  {
    hide I.Finish, DeleteAllOf;
    Unfold(s, i, I.BulkDelete(inst, target, stage), faults, calls);
  }

  method ReconcileLive(api: ApiServer, i: Key, copy: InstCopy) returns (verdict: I.Then)
    requires copy.inst == copy.read
    modifies api, copy
    ensures I.Finished(api.st, verdict, api.calls) ==
            I.Finish(old(api.st), i, I.GetParent(old(copy.read)), api.faults, old(api.calls))
  {
    hide I.Finish;
    var ref := copy.inst.spec.ref;
    Unfold(api.st, i, I.GetParent(copy.read), api.faults, api.calls);
    var found := api.GetLab(Key(i.origin, ref));
    match found {
      case Unavailable => return I.Err;
      case Absent => verdict := AwaitParent(api, i, copy);
      case Present(parent) =>
        AtOwner(api.st, i, copy.read, parent, api.faults, api.calls);
        if I.Ownable(copy.inst) {
          var owned := copy.inst.(owner := Some(Owner(ref, parent.uid)));
          var ok := api.SaveInst(i, copy.read, owned);
          if ok {
            copy.read := owned;
            copy.inst := owned;
          }
        }
        if parent.status.phase == Running {
          var target := if parent.status.target == "" then api.st.Target(ref) else parent.status.target;
          verdict := PlaceChildren(api, i, copy, target);
        } else {
          verdict := AwaitParent(api, i, copy);
        }
    }
  }

  /** Setting the owner reference: the outcome only decides which copy the pass holds. */
  lemma AtOwner(s: Store, i: Key, inst: InstanceLab, parent: ClusterLab, faults: nat -> bool, calls: nat)
    ensures var owned := I.Owned(inst, parent);
            var ok := I.Ownable(inst) && !faults(calls) && CurrentInst(s, i, inst);
            var st := if ok then Perform(s, UpdateInst(i, owned)) else s;
            I.Finish(s, i, I.SetOwner(inst, parent), faults, calls) ==
            I.Finish(st, i, I.Gate(s, if ok then owned else inst, parent), faults,
                     if I.Ownable(inst) then calls + 1 else calls)
  {
    hide I.Finish, I.Gate;
    Unfold(s, i, I.SetOwner(inst, parent), faults, calls);
  }

  method AwaitParent(api: ApiServer, i: Key, copy: InstCopy) returns (verdict: I.Then)
    requires copy.inst == copy.read
    modifies api, copy
    ensures I.Finished(api.st, verdict, api.calls) ==
            I.Finish(old(api.st), i, I.WritePending(old(copy.read)), api.faults, old(api.calls))
  {
    hide I.Finish, Perform, Conditions.Set;
    Unfold(api.st, i, I.WritePending(copy.read), api.faults, api.calls);
    var list := new ConditionList(copy.inst.status.conditions);
    list.SetCondition("WaitingForCluster", false, "ParentNotReady", I.WaitingMessage(copy.inst.spec.ref), api.st.now);
    copy.inst := copy.inst.(status := InstanceStatus(Pending, list.items));
    var _ := api.SaveInst(i, copy.read, copy.inst);
    return I.Done(I.FIVE_SECONDS);
  }

  /** PVC, Pod, Service and Ingress in turn, each only if the spec calls for it. */
  method PlaceChildren(api: ApiServer, i: Key, copy: InstCopy, target: string) returns (verdict: I.Then)
    requires copy.inst == copy.read
    modifies api, copy
    ensures I.Finished(api.st, verdict, api.calls) ==
            I.Finish(old(api.st), i, I.Place(old(copy.read), target, 0, PodUnknown), api.faults, old(api.calls))
  {
    hide I.Finish, Perform, ApplyWorkload, I.Wanted;
    ghost var inst := copy.read;
    var kinds := I.PLACE_ORDER;
    var seen := PodUnknown;
    var stage := 0;
    while stage < 4
      invariant stage <= 4
      invariant copy.inst == copy.read == inst
      invariant I.Finish(old(api.st), i, I.Place(inst, target, 0, PodUnknown), api.faults, old(api.calls)) ==
                I.Finish(api.st, i, I.Place(inst, target, stage, seen), api.faults, api.calls)
    {
      var kind := kinds[stage];
      AtPlace(api.st, i, inst, target, stage, seen, api.faults, api.calls);
      if I.Wanted(copy.inst.spec, kind) {
        var ok, phase := api.CreateOrUpdateWorkload(target, I.Child(api.st, i, kind), i, I.ParentKey(i, copy.inst));
        if !ok {
          UpdateStatusFailed(api, i, copy, I.FailReason(kind));
          return I.Err;
        }
        if kind == Pod {
          seen := phase;
        }
      }
      stage := stage + 1;
    }
    AtEnd(api.st, i, inst, target, seen, api.faults, api.calls);
    verdict := UpdateInstanceLabStatus(api, i, copy, seen);
  }

  lemma AtPlace(s: Store, i: Key, inst: InstanceLab, target: string, stage: nat, seen: PodPhase,
                faults: nat -> bool, calls: nat)
    requires stage < 4
    ensures var kind := I.PLACE_ORDER[stage];
            var o := I.Child(s, i, kind);
            I.Finish(s, i, I.Place(inst, target, stage, seen), faults, calls) ==
            if !I.Wanted(inst.spec, kind) then I.Finish(s, i, I.Place(inst, target, stage + 1, seen), faults, calls)
            else if faults(calls) || !AcceptsWorkload(s, target, o) then
              I.Finish(s, i, I.WriteFailed(inst, I.FailReason(kind)), faults, calls + 1)
            else I.Finish(Perform(s, ApplyWorkload(s, target, o, i, I.ParentKey(i, inst))), i,
                          I.Place(inst, target, stage + 1, if kind == Pod then PhaseAt(s, target, o) else seen),
                          faults, calls + 1)
  {
    hide I.Finish, ApplyWorkload, I.Wanted;
    Unfold(s, i, I.Place(inst, target, stage, seen), faults, calls);
  }

  lemma AtEnd(s: Store, i: Key, inst: InstanceLab, target: string, seen: PodPhase, faults: nat -> bool, calls: nat)
    ensures I.Finish(s, i, I.Place(inst, target, 4, seen), faults, calls) ==
            I.Finish(s, i, I.WriteStatus(inst, seen), faults, calls)
  {
    hide I.Finish;
    Unfold(s, i, I.Place(inst, target, 4, seen), faults, calls);
  }

  method UpdateInstanceLabStatus(api: ApiServer, i: Key, copy: InstCopy, seen: PodPhase) returns (verdict: I.Then)
    requires copy.inst == copy.read
    modifies api, copy
    ensures I.Finished(api.st, verdict, api.calls) ==
            I.Finish(old(api.st), i, I.WriteStatus(old(copy.read), seen), api.faults, old(api.calls))
  {
    hide I.Finish, Perform, Conditions.Set;
    Unfold(api.st, i, I.WriteStatus(copy.read, seen), api.faults, api.calls);
    var list := new ConditionList(copy.inst.status.conditions);
    var phase := Creating;
    match seen {
      case PodRunning =>
        phase := Running;
        list.SetCondition("PodReady", true, "ContainerRunning", I.VM_RUNNING, api.st.now);
      case PodPending =>
        list.SetCondition("PodReady", false, "PodPending", I.VM_PENDING, api.st.now);
      case PodFailed =>
        phase := Failed;
        list.SetCondition("PodReady", false, "PodFailed", I.VM_FAILED, api.st.now);
      case PodUnknown =>
    }
    if phase == Running {
      list.SetCondition("Ready", true, "InstanceReady", I.INSTANCE_READY, api.st.now);
    } else {
      list.SetCondition("Ready", false, "InstanceProvisioning", I.INSTANCE_PROVISIONING, api.st.now);
    }
    copy.inst := copy.inst.(status := InstanceStatus(phase, list.items));
    var ok := api.SaveInst(i, copy.read, copy.inst);
    return if ok then I.Done(0) else I.Err;
  }

  /** The failed status is written if possible; the pass ends in an error either way. */
  method UpdateStatusFailed(api: ApiServer, i: Key, copy: InstCopy, reason: string)
    requires copy.inst == copy.read
    modifies api, copy
    ensures I.Finished(api.st, I.Err, api.calls) ==
            I.Finish(old(api.st), i, I.WriteFailed(old(copy.read), reason), api.faults, old(api.calls))
  {
    hide I.Finish, Perform, Conditions.Set;
    Unfold(api.st, i, I.WriteFailed(copy.read, reason), api.faults, api.calls);
    var list := new ConditionList(copy.inst.status.conditions);
    list.SetCondition("Ready", false, reason, reason, api.st.now);
    copy.inst := copy.inst.(status := InstanceStatus(Failed, list.items));
    var _ := api.SaveInst(i, copy.read, copy.inst);
  }
}
