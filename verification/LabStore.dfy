/**
 The API server as the two lab controllers see it: ClusterLabs, InstanceLabs, the target
 namespaces and what lies in them, the ClusterLab work queue and the clock.

 Every write is a function from store to store. A write that changes a watched object puts
 the keys its watch maps to into `dirty`; a write that changes nothing emits no event.
 Optimistic locking by resource version is modelled by comparing the stored object with the
 copy that the caller read: equal versions mean equal objects, and as any call may fail
 anyway, this admits every behaviour of the version check.
 */
module LabStore {
  import opened Prelude
  import opened Conditions

  /** A namespaced name: the namespace the user works in, and the object's name. */
  datatype Key = Key(origin: string, name: string)

  /** spec.ttl after parsing: absent, not a duration, or a duration. */
  datatype Ttl = NoTtl | BadTtl | Lasts(duration: int)

  datatype Phase = NoPhase | Pending | Creating | Running | Failed

  /** Zero means "not set", as in the program. */
  datatype QuotaSpec = QuotaSpec(cpu: nat, memory: nat, pods: int, services: int, storage: nat)

  datatype ClusterSpec = ClusterSpec(ttl: Ttl, network: string, quota: QuotaSpec)

  datatype ClusterStatus = ClusterStatus(
    phase: Phase, target: string, expiresAt: Option<int>,
    total: nat, ready: nat, conditions: seq<Condition>)

  datatype ClusterLab = ClusterLab(
    uid: nat, created: int, labels: map<string, string>, spec: ClusterSpec,
    deleting: bool, finalizer: bool, status: ClusterStatus)

  datatype Port = Port(name: string, port: int, targetPort: int, expose: bool)

  /** `storage` says whether a storage limit is set. */
  datatype InstanceSpec = InstanceSpec(ref: string, storage: bool, ports: seq<Port>)

  datatype InstanceStatus = InstanceStatus(phase: Phase, conditions: seq<Condition>)

  /** The controller reference: the name and the uid of the ClusterLab. */
  datatype Owner = Owner(name: string, uid: nat)

  datatype InstanceLab = InstanceLab(
    uid: nat, spec: InstanceSpec, owner: Option<Owner>,
    deleting: bool, finalizer: bool, status: InstanceStatus)

  datatype Kind = Pvc | Pod | Service | Ingress

  datatype ObjectKey = ObjectKey(kind: Kind, name: string)

  datatype PodPhase = PodUnknown | PodPending | PodRunning | PodFailed

  /**
   A workload with the labels the operator puts on it. `placedBy` and `placedFor` are history:
   the InstanceLab whose pass labelled it last and the ClusterLab it was placed for. No step
   reads them.
   */
  datatype Workload = Workload(
    instance: string, cluster: string, phase: PodPhase, placedBy: Key, placedFor: Key)

  /** `home` is history: the ClusterLab whose pass created the namespace. No step reads it. */
  datatype Namespace = Namespace(
    terminating: bool, labels: map<string, string>,
    hard: Option<map<Resource, int>>, policy: Option<Policy>,
    objects: map<ObjectKey, Workload>, home: Key)

  /** The resource names of the quota entries the operator sets. */
  datatype Resource =
    | LimitsCpu | RequestsCpu | LimitsMemory | RequestsMemory | Pods | Services | LimitsEphemeralStorage

  /** The ingress rules of the network policy: nobody, pods of the namespace, everybody. */
  datatype Policy = AllowNone | AllowNamespace | AllowAll

  /** How names are derived: target namespace of a ClusterLab, child object of an InstanceLab. */
  datatype Names = Names(target: string -> string, child: (Kind, string) -> string)

  datatype Store = Store(
    names: Names,
    labs: map<Key, ClusterLab>,
    insts: map<Key, InstanceLab>,
    spaces: map<string, Namespace>,
    dirty: set<Key>, timers: map<Key, int>,
    now: int, nextUid: nat)
  {
    function Target(name: string): string { names.target(name) }
  }

  /** The parent a ClusterLab watch maps an InstanceLab to; an empty reference maps to nothing. */
  function Parents(i: Key, inst: InstanceLab): set<Key>
  {
    if inst.spec.ref == "" then {} else {Key(i.origin, inst.spec.ref)}
  }

  function StoredParents(s: Store, i: Key): set<Key>
  {
    if i in s.insts then Parents(i, s.insts[i]) else {}
  }

  /** The InstanceLabs that name ClusterLab `k` as their parent, and those of them that run. */
  function Members(s: Store, k: Key): set<Key>
  {
    set i | i in s.insts && i.origin == k.origin && s.insts[i].spec.ref == k.name
  }

  function RunningMembers(s: Store, k: Key): set<Key>
  {
    set i | i in s.insts && i.origin == k.origin && s.insts[i].spec.ref == k.name
            && s.insts[i].status.phase == Running
  }

  // ----- writes -------------------------------------------------------------

  /** Every change of the store is one of these. */
  datatype Write =
    | Nothing
    | PutLab(k: Key, lab: ClusterLab)
    | DropLab(k: Key)
    | PutInst(i: Key, inst: InstanceLab)
    | DropInst(i: Key)
    | PutSpace(n: string, space: Namespace)
    | DropSpace(n: string)

  function Perform(s: Store, w: Write): Store
  {
    match w
    case Nothing => s
    case PutLab(k, lab) =>
      if k in s.labs && s.labs[k] == lab then s
      else s.(labs := s.labs[k := lab], dirty := s.dirty + {k},
              nextUid := if k in s.labs then s.nextUid else s.nextUid + 1)
    case DropLab(k) =>
      if k !in s.labs then s
      else s.(labs := s.labs - {k}, dirty := s.dirty + {k})
    case PutInst(i, inst) =>
      if i in s.insts && s.insts[i] == inst then s
      else s.(insts := s.insts[i := inst], dirty := s.dirty + Parents(i, inst) + StoredParents(s, i),
              nextUid := if i in s.insts then s.nextUid else s.nextUid + 1)
    case DropInst(i) =>
      if i !in s.insts then s
      else s.(insts := s.insts - {i}, dirty := s.dirty + StoredParents(s, i))
    case PutSpace(n, space) => s.(spaces := s.spaces[n := space])
    case DropSpace(n) => s.(spaces := s.spaces - {n})
  }

  lemma NothingHappens(s: Store)
    ensures Perform(s, Nothing) == s
  {
  }

  /** Update of a ClusterLab: one under deletion goes with its last finalizer. */
  function UpdateLab(k: Key, lab: ClusterLab): Write
  {
    if lab.deleting && !lab.finalizer then DropLab(k) else PutLab(k, lab)
  }

  function UpdateInst(i: Key, inst: InstanceLab): Write
  {
    if inst.deleting && !inst.finalizer then DropInst(i) else PutInst(i, inst)
  }

  /** An update goes through only if the stored object is still the one that was read. */
  predicate CurrentLab(s: Store, k: Key, read: ClusterLab) { k in s.labs && s.labs[k] == read }

  predicate CurrentInst(s: Store, i: Key, read: InstanceLab) { i in s.insts && s.insts[i] == read }

  /** Delete sets the deletion timestamp while the finalizer is left. */
  function DeleteLab(s: Store, k: Key): Write
  {
    if k !in s.labs then Nothing else UpdateLab(k, s.labs[k].(deleting := true))
  }

  function DeleteInst(s: Store, i: Key): Write
  {
    if i !in s.insts then Nothing else UpdateInst(i, s.insts[i].(deleting := true))
  }

  function DeleteSpace(s: Store, n: string): Write
  {
    if n in s.spaces then PutSpace(n, s.spaces[n].(terminating := true)) else Nothing
  }

  // ----- target namespace ---------------------------------------------------

  const MANAGED_BY := "app.kubernetes.io/managed-by"
  const MANAGER := "typ-lab-operator"
  const CLUSTER_LABEL := "lab.devops.toiyeuptit.com/clusterlab"

  predicate Propagates(key: string)
  {
    "student_" <= key || "lab_" <= key || "session_" <= key
  }

  /** Identity labels, then the ClusterLab's own student_/lab_/session_ labels on top. */
  function SpaceLabels(was: map<string, string>, name: string, labels: map<string, string>): map<string, string>
  {
    was[MANAGED_BY := MANAGER][CLUSTER_LABEL := name]
    + (map l | l in labels && Propagates(l) :: labels[l])
  }

  /** CreateOrUpdate of the namespace; updating a terminating one is allowed. */
  function ApplySpace(s: Store, k: Key, n: string, labels: map<string, string>): Write
  {
    if n in s.spaces then
      PutSpace(n, s.spaces[n].(labels := SpaceLabels(s.spaces[n].labels, k.name, labels)))
    else
      PutSpace(n, Namespace(false, SpaceLabels(map[], k.name, labels), None, None, map[], k))
  }

  function Positive(resource: Resource, limit: int): map<Resource, int>
  {
    if limit > 0 then map[resource := limit] else map[]
  }

  /** The hard limits a quota spec asks for; a zero limit asks for nothing. */
  function Asked(q: QuotaSpec): map<Resource, int>
  {
    Positive(LimitsCpu, q.cpu) + Positive(RequestsCpu, q.cpu)
    + Positive(LimitsMemory, q.memory) + Positive(RequestsMemory, q.memory)
    + Positive(Pods, q.pods) + Positive(Services, q.services)
    + Positive(LimitsEphemeralStorage, q.storage)
  }

  /** The quota mutation: entries asked for are set, all others are left as they are. */
  function Hard(was: Option<map<Resource, int>>, q: QuotaSpec): map<Resource, int>
  {
    (if was.Some? then was.value else map[]) + Asked(q)
  }

  /** The modes are compared without case; any other value isolates, as "isolate" does. */
  function PolicyFor(network: string): Policy
  {
    var mode := ToLower(network);
    if mode == "internal" then AllowNamespace else if mode == "external" then AllowAll else AllowNone
  }

  /** CreateOrUpdate inside a namespace: creation is refused in a missing or terminating one. */
  predicate AcceptsHard(s: Store, n: string)
  {
    n in s.spaces && (s.spaces[n].hard.Some? || !s.spaces[n].terminating)
  }

  predicate AcceptsPolicy(s: Store, n: string)
  {
    n in s.spaces && (s.spaces[n].policy.Some? || !s.spaces[n].terminating)
  }

  predicate AcceptsWorkload(s: Store, n: string, o: ObjectKey)
  {
    n in s.spaces && (o in s.spaces[n].objects || !s.spaces[n].terminating)
  }

  function ApplyHard(s: Store, n: string, q: QuotaSpec): Write
    requires AcceptsHard(s, n)
  {
    PutSpace(n, s.spaces[n].(hard := Some(Hard(s.spaces[n].hard, q))))
  }

  function ApplyPolicy(s: Store, n: string, network: string): Write
    requires AcceptsPolicy(s, n)
  {
    PutSpace(n, s.spaces[n].(policy := Some(PolicyFor(network))))
  }

  // ----- workloads ----------------------------------------------------------

  /** The phase in the answer to CreateOrUpdate: the stored one, and Pending for a Pod just created. */
  function PhaseAt(s: Store, n: string, o: ObjectKey): PodPhase
  {
    if n in s.spaces && o in s.spaces[n].objects then s.spaces[n].objects[o].phase
    else if o.kind == Pod then PodPending else PodUnknown
  }

  /** CreateOrUpdate of one child object: an existing one is relabelled and keeps its phase. */
  function ApplyWorkload(s: Store, n: string, o: ObjectKey, i: Key, k: Key): Write
    requires AcceptsWorkload(s, n, o)
  {
    PutSpace(n, s.spaces[n].(objects :=
      s.spaces[n].objects[o := Workload(i.name, k.name, PhaseAt(s, n, o), i, k)]))
  }

  predicate Selected(objects: map<ObjectKey, Workload>, o: ObjectKey, kind: Kind, instance: string)
    requires o in objects
  {
    o.kind == kind && objects[o].instance == instance
  }

  /** DeleteAllOf: every object of the kind that carries the instance label. */
  function DeleteAllOf(s: Store, n: string, kind: Kind, instance: string): Write
  {
    if n !in s.spaces then Nothing
    else
      var objects := s.spaces[n].objects;
      PutSpace(n, s.spaces[n].(objects :=
        map o | o in objects && !Selected(objects, o, kind, instance) :: objects[o]))
  }

  // ----- work queue ---------------------------------------------------------

  /** RequeueAfter keeps the earlier of two timers of a key. */
  function AddAfter(s: Store, k: Key, at: int): Store
  {
    s.(timers := s.timers[k := if k in s.timers then Min(s.timers[k], at) else at])
  }

  function AddNow(s: Store, k: Key): Store
  {
    s.(dirty := s.dirty + {k})
  }
}
