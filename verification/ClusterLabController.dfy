/**
 The ClusterLab reconciler, one API call at a time. A `Pass` is a reconcile in flight: the
 call it makes next and the variables it holds. `Call` performs that call; it may fail.
 */
module ClusterLabController {
  import opened Prelude
  import opened Conditions
  import opened LabStore

  /**
   `lab` is the object as it was read, `mem` its status as the pass has changed it in memory,
   `wait` the requeue delay computed so far (not positive: none).
   */
  datatype Pass =
    | Get
    | AddFinalizer(lab: ClusterLab)
    | DeleteTarget(lab: ClusterLab)
    | CheckTarget(lab: ClusterLab)
    | RemoveFinalizer(lab: ClusterLab)
    | DeleteExpired(lab: ClusterLab)
    | ReadClock(lab: ClusterLab, mem: ClusterStatus)
    | ApplyNamespace(lab: ClusterLab, mem: ClusterStatus, wait: int)
    | ApplyQuota(lab: ClusterLab, mem: ClusterStatus, wait: int)
    | ApplyNetwork(lab: ClusterLab, mem: ClusterStatus, wait: int)
    | ListInstances(lab: ClusterLab, mem: ClusterStatus, wait: int)
    | WriteStatus(lab: ClusterLab, mem: ClusterStatus, wait: int)
    | WriteFailed(lab: ClusterLab, mem: ClusterStatus)

  /** A call writes to the store, then the pass goes on, ends with a delay, or ends in an error. */
  datatype Outcome = Outcome(write: Write, then_: Then)

  datatype Then = Next(pass: Pass) | Done(wait: int) | Err

  /** The namespace a deletion cleans up: the recorded one, or the derived one if none is recorded. */
  function CleanupTarget(s: Store, k: Key, lab: ClusterLab): string
  {
    if lab.status.target == "" then s.Target(k.name) else lab.status.target
  }

  /** The status in memory once target and expiry are set. */
  function Opening(s: Store, k: Key, lab: ClusterLab): ClusterStatus
  {
    var mem := if lab.status.target == "" then lab.status.(target := s.Target(k.name)) else lab.status;
    match lab.spec.ttl
    case NoTtl => mem.(expiresAt := None)
    case BadTtl => mem
    case Lasts(d) => mem.(expiresAt := Some(lab.created + d))
  }

  /** The first branches of a pass, on the object just read. */
  function Dispatch(s: Store, k: Key, lab: ClusterLab): Then
  {
    if !lab.deleting && !lab.finalizer then Next(AddFinalizer(lab))
    else if lab.deleting then
      if lab.finalizer then Next(DeleteTarget(lab)) else Done(0)
    else
      match lab.spec.ttl
      case NoTtl => Next(ApplyNamespace(lab, Opening(s, k, lab), 0))
      case BadTtl => Err
      case Lasts(d) =>
        if s.now >= lab.created + d then Next(DeleteExpired(lab))
        else Next(ReadClock(lab, Opening(s, k, lab)))
  }

  function NamespaceMessage(n: string): string { "Namespace " + n + " is active and operational" }

  function PolicyMessage(mode: string): string { "Network mode applied: " + mode }

  /** Status after a full provisioning pass. */
  function RunningStatus(mem: ClusterStatus, target: string, network: string, now: int): ClusterStatus
  {
    var c1 := Set(mem.conditions, Condition("NamespaceReady", true, "NamespaceReconciled", NamespaceMessage(target), now));
    var c2 := Set(c1, Condition("QuotaReady", true, "QuotaReconciled", "Resource limits successfully enforced", now));
    var c3 := Set(c2, Condition("NetworkPolicyReady", true, "PolicyReconciled", PolicyMessage(network), now));
    var c4 := Set(c3, Condition("Ready", true, "ClusterReady", "ClusterLab is fully provisioned and operational", now));
    mem.(phase := Running, target := target, conditions := c4)
  }

  /** Status after a provisioning call failed. */
  function FailedStatus(mem: ClusterStatus, reason: string, now: int): ClusterStatus
  {
    mem.(phase := Failed, conditions := Set(mem.conditions, Condition("Ready", false, reason, reason, now)))
  }

  /** Writes the object unless the call fails or the stored object has changed since it was read. */
  function Save(s: Store, k: Key, read: ClusterLab, lab: ClusterLab, fault: bool, saved: Then): Outcome
  {
    if fault || !CurrentLab(s, k, read) then Outcome(Nothing, Err) else Outcome(UpdateLab(k, lab), saved)
  }

  function Fail(s: Store, lab: ClusterLab, mem: ClusterStatus, reason: string): Outcome
  {
    Outcome(Nothing, Next(WriteFailed(lab, FailedStatus(mem, reason, s.now))))
  }

  /** The counters; a failing list leaves them as they were. */
  function Counted(s: Store, k: Key, mem: ClusterStatus, fault: bool): ClusterStatus
  {
    if fault then mem else mem.(total := |Members(s, k)|, ready := |RunningMembers(s, k)|)
  }

  /** One call of the pass of key `k`; `fault` makes it fail without effect. */
  function Call(s: Store, k: Key, pass: Pass, fault: bool): (out: Outcome)
    ensures out.then_.Next? ==> Rank(out.then_.pass) < Rank(pass)
  {
    var n := s.Target(k.name);
    match pass
    case Get =>
      Outcome(Nothing, if fault then Err else if k !in s.labs then Done(0) else Dispatch(s, k, s.labs[k]))
    case AddFinalizer(lab) => Save(s, k, lab, lab.(finalizer := true), fault, Done(0))
    case DeleteTarget(lab) =>
      if fault then Outcome(Nothing, Err)
      else Outcome(DeleteSpace(s, CleanupTarget(s, k, lab)), Next(CheckTarget(lab)))
    case CheckTarget(lab) =>
      // Anything but "not found", an error included, waits three seconds.
      Outcome(Nothing, if fault || CleanupTarget(s, k, lab) in s.spaces then Done(THREE_SECONDS)
                       else Next(RemoveFinalizer(lab)))
    case RemoveFinalizer(lab) => Save(s, k, lab, lab.(finalizer := false), fault, Done(0))
    case DeleteExpired(lab) => if fault then Outcome(Nothing, Err) else Outcome(DeleteLab(s, k), Done(0))
    case ReadClock(lab, mem) =>
      // Not an API call: the clock is read a second time.
      Outcome(Nothing, Next(ApplyNamespace(lab, mem,
        if mem.expiresAt.Some? then mem.expiresAt.value - s.now else 0)))
    case ApplyNamespace(lab, mem, wait) =>
      if fault then Fail(s, lab, mem, "NamespaceError")
      else Outcome(ApplySpace(s, k, n, lab.labels), Next(ApplyQuota(lab, mem, wait)))
    case ApplyQuota(lab, mem, wait) =>
      if fault || !AcceptsHard(s, n) then Fail(s, lab, mem, "QuotaError")
      else Outcome(ApplyHard(s, n, lab.spec.quota), Next(ApplyNetwork(lab, mem, wait)))
    case ApplyNetwork(lab, mem, wait) =>
      if fault || !AcceptsPolicy(s, n) then Fail(s, lab, mem, "NetworkPolicyError")
      else Outcome(ApplyPolicy(s, n, lab.spec.network), Next(ListInstances(lab, mem, wait)))
    case ListInstances(lab, mem, wait) =>
      Outcome(Nothing, Next(WriteStatus(lab,
        RunningStatus(Counted(s, k, mem, fault), n, lab.spec.network, s.now), wait)))
    case WriteStatus(lab, mem, wait) =>
      Save(s, k, lab, lab.(status := mem), fault, Done(if wait > 0 then wait else 0))
    case WriteFailed(lab, mem) => Save(s, k, lab, lab.(status := mem), fault, Err)
  }

  const THREE_SECONDS := 3_000_000_000

  /** The pass provisions: it read a live ClusterLab and has not finished. */
  predicate Provisions(p: Pass)
  {
    p.ReadClock? || p.ApplyNamespace? || p.ApplyQuota? || p.ApplyNetwork?
    || p.ListInstances? || p.WriteStatus? || p.WriteFailed?
  }

  /** The pass works on a ClusterLab that carried the finalizer when it was read. */
  predicate Guarded(p: Pass)
  {
    Provisions(p) || p.DeleteTarget? || p.CheckTarget? || p.RemoveFinalizer? || p.DeleteExpired?
  }

  // ----- whole passes -----------------------------------------------------------

  /** Reading the clock is not an API call. */
  predicate Silent(p: Pass) { p.ReadClock? }

  /** Calls left at most; every call brings the pass nearer to its end. */
  function Rank(p: Pass): nat
  {
    match p
    case Get => 10
    case AddFinalizer(_) => 1 case DeleteExpired(_) => 1
    case DeleteTarget(_) => 3 case CheckTarget(_) => 2 case RemoveFinalizer(_) => 1
    case ReadClock(_, _) => 8 case ApplyNamespace(_, _, _) => 7 case ApplyQuota(_, _, _) => 6
    case ApplyNetwork(_, _, _) => 5 case ListInstances(_, _, _) => 4 case WriteStatus(_, _, _) => 3
    case WriteFailed(_, _) => 2
  }

  /** What an uninterrupted pass leaves: the store, its verdict and the number of calls made. */
  datatype Finished = Finished(st: Store, verdict: Then, calls: nat)

  /** The rest of a pass that nobody interrupts; `faults` says which calls fail. */
  function Finish(s: Store, k: Key, p: Pass, faults: nat -> bool, calls: nat): (r: Finished)
    ensures !r.verdict.Next?
    decreases Rank(p)
  {
    var out := Call(s, k, p, faults(calls));
    var st := Perform(s, out.write);
    var made := if Silent(p) then calls else calls + 1;
    if out.then_.Next? then Finish(st, k, out.then_.pass, faults, made)
    else Finished(st, out.then_, made)
  }
}
