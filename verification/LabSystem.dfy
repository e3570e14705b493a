/**
 Both lab controllers, their users, the namespace controller and the clock as one machine.
 `Do` is total: an action whose guard is off changes nothing, so every sequence of actions
 is a run, with any interleaving of API calls and any of them failing.
 */
module LabSystem {
  import opened Prelude
  import opened LabStore
  import C = ClusterLabController
  import I = InstanceLabController

  /** The store and the passes in flight, at most one for each key. */
  datatype System = System(st: Store, cp: map<Key, C.Pass>, ip: map<Key, I.Pass>)

  datatype Action =
    // users and garbage collection
    | CreateLab(k: Key, spec: ClusterSpec, labels: map<string, string>)
    | EditLab(k: Key, spec: ClusterSpec, labels: map<string, string>)
    | RemoveLab(k: Key)
    | CreateInst(i: Key, ispec: InstanceSpec)
    | EditInst(i: Key, ispec: InstanceSpec)
    | RemoveInst(i: Key)
    // kubelet, other clients, namespace controller, clock
    | ChangePod(n: string, o: ObjectKey, phase: PodPhase)
    | RemoveWorkload(n: string, o: ObjectKey)
    | FinishSpace(n: string)
    | Tick(dt: nat)
    // work queue and reconcilers
    | Fire(k: Key)
    | StartCluster(k: Key)
    | CallCluster(k: Key, fault: bool)
    | StartInst(i: Key)
    | CallInst(i: Key, fault: bool)

  function NewLab(s: Store, spec: ClusterSpec, labels: map<string, string>): ClusterLab
  {
    ClusterLab(s.nextUid, s.now, labels, spec, false, false, ClusterStatus(NoPhase, "", None, 0, 0, []))
  }

  function NewInst(s: Store, spec: InstanceSpec): InstanceLab
  {
    InstanceLab(s.nextUid, spec, None, false, false, InstanceStatus(NoPhase, []))
  }

  /** What users, the kubelet, other clients and the namespace controller write. */
  function OutsideWrite(s: Store, a: Action): Write
  {
    match a
    case CreateLab(k, spec, labels) => if k in s.labs then Nothing else PutLab(k, NewLab(s, spec, labels))
    case EditLab(k, spec, labels) =>
      if k in s.labs then PutLab(k, s.labs[k].(spec := spec, labels := labels)) else Nothing
    case RemoveLab(k) => DeleteLab(s, k)
    case CreateInst(i, spec) => if i in s.insts then Nothing else PutInst(i, NewInst(s, spec))
    case EditInst(i, spec) => if i in s.insts then PutInst(i, s.insts[i].(spec := spec)) else Nothing
    case RemoveInst(i) => DeleteInst(s, i)
    case ChangePod(n, o, phase) =>
      if n in s.spaces && o in s.spaces[n].objects then
        PutSpace(n, s.spaces[n].(objects := s.spaces[n].objects[o := s.spaces[n].objects[o].(phase := phase)]))
      else Nothing
    case RemoveWorkload(n, o) =>
      if n in s.spaces then PutSpace(n, s.spaces[n].(objects := s.spaces[n].objects - {o})) else Nothing
    case FinishSpace(n) =>
      if n in s.spaces && s.spaces[n].terminating && s.spaces[n].objects == map[] then DropSpace(n) else Nothing
    case _ => Nothing
  }

  /** End of a ClusterLab pass: an error requeues the key at once, a positive delay sets its timer. */
  function SettleCluster(s: System, k: Key, out: C.Outcome): System
  {
    var st := Perform(s.st, out.write);
    match out.then_
    case Next(p) => s.(st := st, cp := s.cp[k := p])
    case Done(wait) => s.(st := if wait > 0 then AddAfter(st, k, st.now + wait) else st, cp := s.cp - {k})
    case Err => s.(st := AddNow(st, k), cp := s.cp - {k})
  }

  /** Settling a call touches only the queue besides its write. */
  lemma SettleQueue(s: System, k: Key, out: C.Outcome)
    ensures var st := Perform(s.st, out.write);
            var t := SettleCluster(s, k, out);
            && t.st.names == st.names && t.st.labs == st.labs && t.st.insts == st.insts
            && t.st.spaces == st.spaces && t.st.now == st.now
            && t.ip == s.ip && t.cp == if out.then_.Next? then s.cp[k := out.then_.pass] else s.cp - {k}
  {
    hide Perform;
    match out.then_ { case Next(_) => case Done(_) => case Err => }
  }

  /** The InstanceLab queue is not kept: a pass of any key may start at any time. */
  function SettleInst(s: System, i: Key, out: I.Outcome): System
  {
    s.(st := Perform(s.st, out.write),
       ip := if out.then_.Next? then s.ip[i := out.then_.pass] else s.ip - {i})
  }

  function Do(s: System, a: Action): System
  {
    match a
    case Tick(dt) => s.(st := s.st.(now := s.st.now + dt))
    case Fire(k) =>
      if k in s.st.timers && s.st.timers[k] <= s.st.now then
        s.(st := AddNow(s.st, k).(timers := s.st.timers - {k}))
      else s
    case StartCluster(k) =>
      if k in s.cp then s else s.(st := s.st.(dirty := s.st.dirty - {k}), cp := s.cp[k := C.Get])
    case CallCluster(k, fault) =>
      if k in s.cp then SettleCluster(s, k, C.Call(s.st, k, s.cp[k], fault)) else s
    case StartInst(i) =>
      if i in s.ip then s else s.(ip := s.ip[i := I.Get])
    case CallInst(i, fault) =>
      if i in s.ip then SettleInst(s, i, I.Call(s.st, i, s.ip[i], fault)) else s
    case _ => s.(st := Perform(s.st, OutsideWrite(s.st, a)))
  }

  /** The write an action makes, if it makes one. */
  ghost function WriteOf(s: System, a: Action): Write
  {
    match a
    case CallCluster(k, fault) => if k in s.cp then C.Call(s.st, k, s.cp[k], fault).write else Nothing
    case CallInst(i, fault) => if i in s.ip then I.Call(s.st, i, s.ip[i], fault).write else Nothing
    case _ => OutsideWrite(s.st, a)
  }

  lemma DoPerforms(s: System, a: Action)
    ensures var t := Do(s, a).st; var u := Perform(s.st, WriteOf(s, a));
            t.names == u.names && t.labs == u.labs && t.spaces == u.spaces
  {
    hide C.Call, I.Call;
    match a {
      case CallCluster(k, fault) =>
        if k in s.cp {
          SettleQueue(s, k, C.Call(s.st, k, s.cp[k], fault));
          hide Perform, SettleCluster;
        }
      case CallInst(_, _) =>
      case Fire(_) =>
      case Tick(_) =>
      case StartCluster(_) =>
      case StartInst(_) =>
      case _ =>
    }
  }

  /** The state after a run. */
  function Run(s: System, acts: seq<Action>): System
    decreases |acts|
  {
    if acts == [] then s else Run(Do(s, acts[0]), acts[1..])
  }

  predicate Initial(s: System)
  {
    s.cp == map[] && s.ip == map[] && s.st.labs == map[] && s.st.insts == map[] && s.st.spaces == map[]
  }

  lemma RunCons(s: System, a: Action, rest: seq<Action>)
    ensures Run(s, [a] + rest) == Run(Do(s, a), rest)
  {
    hide Do;
    assert ([a] + rest)[1..] == rest;
  }

  lemma {:induction false} RunAppend(s: System, a: seq<Action>, b: seq<Action>)
    ensures Run(s, a + b) == Run(Run(s, a), b)
    decreases |a|
  {
    if a == [] {
      assert a + b == b;
    } else {
      assert (a + b)[1..] == a[1..] + b;
      RunAppend(Do(s, a[0]), a[1..], b);
    }
  }
}
