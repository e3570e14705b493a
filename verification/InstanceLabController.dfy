/** The InstanceLab reconciler, one API call at a time; see ClusterLabController. */
module InstanceLabController {
  import opened Prelude
  import opened Conditions
  import opened LabStore

  /**
   `inst` is the object as last read or written. Cleanup goes through the kinds of
   `CLEANUP_ORDER`, provisioning through those of `PLACE_ORDER`.
   */
  datatype Pass =
    | Get
    | AddFinalizer(inst: InstanceLab)
    | FindCleanupTarget(inst: InstanceLab)
    | BulkDelete(inst: InstanceLab, target: string, stage: nat)
    | RemoveFinalizer(inst: InstanceLab)
    | GetParent(inst: InstanceLab)
    | SetOwner(inst: InstanceLab, parent: ClusterLab)
    | WritePending(inst: InstanceLab)
    | Place(inst: InstanceLab, target: string, stage: nat, seen: PodPhase)
    | WriteStatus(inst: InstanceLab, seen: PodPhase)
    | WriteFailed(inst: InstanceLab, reason: string)

  datatype Outcome = Outcome(write: Write, then_: Then)

  datatype Then = Next(pass: Pass) | Done(wait: int) | Err

  const CLEANUP_ORDER: seq<Kind> := [Ingress, Service, Pod, Pvc]
  const PLACE_ORDER: seq<Kind> := [Pvc, Pod, Service, Ingress]
  const FIVE_SECONDS := 5_000_000_000

  function ParentKey(i: Key, inst: InstanceLab): Key { Key(i.origin, inst.spec.ref) }

  predicate AnyExposed(ports: seq<Port>)
  {
    exists j :: 0 <= j < |ports| && ports[j].expose
  }

  /** Which children the spec calls for. */
  predicate Wanted(spec: InstanceSpec, kind: Kind)
  {
    match kind
    case Pvc => spec.storage
    case Pod => true
    case Service => spec.ports != []
    case Ingress => AnyExposed(spec.ports)
  }

  function Child(s: Store, i: Key, kind: Kind): ObjectKey
  {
    ObjectKey(kind, s.names.child(kind, i.name))
  }

  /** The recorded target of a parent, or the derived one if none is recorded. */
  function TargetOf(s: Store, parent: ClusterLab, name: string): string
  {
    if parent.status.target == "" then s.Target(name) else parent.status.target
  }

  // Condition messages.
  const VM_RUNNING := "Sysbox VM instance is running and responsive"
  const VM_PENDING := "Waiting for K8s scheduler and volume mounting"
  const VM_FAILED := "Sysbox VM Pod execution failed"
  const INSTANCE_READY := "InstanceLab is ready for student connectivity"
  const INSTANCE_PROVISIONING := "InstanceLab is currently being provisioned"

  function WaitingMessage(ref: string): string
  {
    "Waiting for parent ClusterLab " + ref + " to enter Running phase"
  }

  function PendingStatus(was: InstanceStatus, ref: string, now: int): InstanceStatus
  {
    InstanceStatus(Pending, Set(was.conditions,
      Condition("WaitingForCluster", false, "ParentNotReady", WaitingMessage(ref), now)))
  }

  function FailedStatus(was: InstanceStatus, reason: string, now: int): InstanceStatus
  {
    InstanceStatus(Failed, Set(was.conditions, Condition("Ready", false, reason, reason, now)))
  }

  /** Phase and conditions read off the Pod; an unknown Pod phase leaves PodReady alone. */
  function ObservedStatus(was: InstanceStatus, seen: PodPhase, now: int): InstanceStatus
  {
    var (phase, cs) := match seen
      case PodRunning => (Running, Set(was.conditions, Condition("PodReady", true, "ContainerRunning", VM_RUNNING, now)))
      case PodPending => (Creating, Set(was.conditions, Condition("PodReady", false, "PodPending", VM_PENDING, now)))
      case PodFailed => (Failed, Set(was.conditions, Condition("PodReady", false, "PodFailed", VM_FAILED, now)))
      case PodUnknown => (Creating, was.conditions);
    var ready := if phase == Running then Condition("Ready", true, "InstanceReady", INSTANCE_READY, now)
                 else Condition("Ready", false, "InstanceProvisioning", INSTANCE_PROVISIONING, now);
    InstanceStatus(phase, Set(cs, ready))
  }

  /** Writes the object unless the call fails or the stored object has changed since it was read. */
  function Save(s: Store, i: Key, read: InstanceLab, inst: InstanceLab, fault: bool, saved: Then): Outcome
  {
    if fault || !CurrentInst(s, i, read) then Outcome(Nothing, Err) else Outcome(UpdateInst(i, inst), saved)
  }

  function Dispatch(inst: InstanceLab): Then
  {
    if !inst.deleting && !inst.finalizer then Next(AddFinalizer(inst))
    else if inst.deleting then
      if inst.finalizer then Next(FindCleanupTarget(inst)) else Done(0)
    else Next(GetParent(inst))
  }

  /** Setting the controller reference is refused if another object is the controller. */
  predicate Ownable(inst: InstanceLab)
  {
    inst.owner.None? || inst.owner.value.name == inst.spec.ref
  }

  function Owned(inst: InstanceLab, parent: ClusterLab): InstanceLab
  {
    inst.(owner := Some(Owner(inst.spec.ref, parent.uid)))
  }

  /** After the owner reference: only a parent in phase Running opens the gate. */
  function Gate(s: Store, inst: InstanceLab, parent: ClusterLab): Pass
  {
    if parent.status.phase == Running then Place(inst, TargetOf(s, parent, inst.spec.ref), 0, PodUnknown)
    else WritePending(inst)
  }

  function Call(s: Store, i: Key, pass: Pass, fault: bool): (out: Outcome)
    ensures out.then_.Next? ==> Rank(out.then_.pass) < Rank(pass)
  {
    match pass
    case Get =>
      Outcome(Nothing, if fault then Err else if i !in s.insts then Done(0) else Dispatch(s.insts[i]))
    case AddFinalizer(inst) => Save(s, i, inst, inst.(finalizer := true), fault, Done(0))
    case FindCleanupTarget(inst) =>
      // Any error, "not found" included, falls back to the derived name.
      var k := ParentKey(i, inst);
      var target := if fault || k !in s.labs then s.Target(k.name) else TargetOf(s, s.labs[k], k.name);
      Outcome(Nothing, Next(BulkDelete(inst, target, 0)))
    case BulkDelete(inst, target, stage) =>
      // The result of a bulk delete is not looked at.
      Outcome(if fault || stage >= 4 then Nothing else DeleteAllOf(s, target, CLEANUP_ORDER[stage], i.name),
              Next(if stage >= 3 then RemoveFinalizer(inst) else BulkDelete(inst, target, stage + 1)))
    case RemoveFinalizer(inst) => Save(s, i, inst, inst.(finalizer := false), fault, Done(0))
    case GetParent(inst) =>
      var k := ParentKey(i, inst);
      Outcome(Nothing, if fault then Err
                       else Next(if k !in s.labs then WritePending(inst) else SetOwner(inst, s.labs[k])))
    case SetOwner(inst, parent) =>
      // An owner of another name, or a failed update, is passed over in silence.
      if Ownable(inst) && !fault && CurrentInst(s, i, inst) then
        var owned := Owned(inst, parent);
        Outcome(UpdateInst(i, owned), Next(Gate(s, owned, parent)))
      else Outcome(Nothing, Next(Gate(s, inst, parent)))
    case WritePending(inst) =>
      // The status write may fail in silence; either way the pass asks for another in five seconds.
      if fault || !CurrentInst(s, i, inst) then Outcome(Nothing, Done(FIVE_SECONDS))
      else Outcome(UpdateInst(i, inst.(status := PendingStatus(inst.status, inst.spec.ref, s.now))), Done(FIVE_SECONDS))
    case Place(inst, target, stage, seen) =>
      if stage >= 4 then Outcome(Nothing, Next(WriteStatus(inst, seen)))
      else
        var kind := PLACE_ORDER[stage];
        var o := Child(s, i, kind);
        if !Wanted(inst.spec, kind) then Outcome(Nothing, Next(Place(inst, target, stage + 1, seen)))
        else if fault || !AcceptsWorkload(s, target, o) then
          Outcome(Nothing, Next(WriteFailed(inst, FailReason(kind))))
        else
          Outcome(ApplyWorkload(s, target, o, i, ParentKey(i, inst)),
                  Next(Place(inst, target, stage + 1, if kind == Pod then PhaseAt(s, target, o) else seen)))
    case WriteStatus(inst, seen) =>
      Save(s, i, inst, inst.(status := ObservedStatus(inst.status, seen, s.now)), fault, Done(0))
    case WriteFailed(inst, reason) =>
      Save(s, i, inst, inst.(status := FailedStatus(inst.status, reason, s.now)), fault, Err)
  }

  function FailReason(kind: Kind): string
  {
    match kind
    case Pvc => "PVCError" case Pod => "PodError" case Service => "ServiceError" case Ingress => "IngressError"
  }

  /** The pass cleans up: it read an InstanceLab under deletion that carried the finalizer. */
  predicate Cleans(p: Pass)
  {
    p.FindCleanupTarget? || p.BulkDelete? || p.RemoveFinalizer?
  }

  /** The pass provisions: it read a live InstanceLab that carried the finalizer. */
  predicate Provisions(p: Pass)
  {
    p.GetParent? || p.SetOwner? || p.WritePending? || p.Place? || p.WriteStatus? || p.WriteFailed?
  }

  // ----- whole passes -----------------------------------------------------------

  /** A foreign owner, a child that is not wanted, and the end of the list make no API call. */
  predicate Silent(p: Pass)
  {
    || (p.SetOwner? && !Ownable(p.inst))
    || (p.Place? && (p.stage >= 4 || !Wanted(p.inst.spec, PLACE_ORDER[p.stage])))
  }

  function Rank(p: Pass): nat
  {
    match p
    case Get => 10
    case AddFinalizer(_) => 1
    case FindCleanupTarget(_) => 6
    case BulkDelete(_, _, stage) => if stage >= 4 then 2 else 6 - stage - 1
    case RemoveFinalizer(_) => 1
    case GetParent(_) => 9 case SetOwner(_, _) => 8 case WritePending(_) => 1
    case Place(_, _, stage, _) => if stage >= 4 then 3 else 7 - stage
    case WriteStatus(_, _) => 2 case WriteFailed(_, _) => 1
  }

  datatype Finished = Finished(st: Store, verdict: Then, calls: nat)

  /** The rest of a pass that nobody interrupts; `faults` says which calls fail. */
  function Finish(s: Store, i: Key, p: Pass, faults: nat -> bool, calls: nat): (r: Finished)
    ensures !r.verdict.Next?
    decreases Rank(p)
  {
    var out := Call(s, i, p, faults(calls));
    var st := Perform(s, out.write);
    var made := if Silent(p) then calls else calls + 1;
    if out.then_.Next? then Finish(st, i, out.then_.pass, faults, made)
    else Finished(st, out.then_, made)
  }
}
