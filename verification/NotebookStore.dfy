/**
 The API server around one NotebookLab: the object, its children, the work queue of its key
 and the clock. The key is queued (`dirty`) by every change of the object or of a child,
 since the controller owns them all; a write that changes nothing emits no event. Deletion
 of the object takes it away at once: it has no finalizer.
 */
module NotebookStore {
  import opened Prelude
  import opened PodBuild

  datatype Phase = NoPhase | Provisioning | Running | Pausing | Paused | Failed

  /** Zero means "no such policy", as in the program. */
  datatype Lifecycle = Lifecycle(idleMinutes: int, lifespanHours: int, purgeDays: int)

  datatype Spec = Spec(replicas: Option<int>, lifecycle: Option<Lifecycle>, pod: PodInputs)

  /** `lastActive` is set by an outside agent; the reconciler reads it and writes it back. */
  datatype Status = Status(phase: Phase, pvcName: string, url: string, lastActive: Option<int>)

  datatype Notebook = Notebook(created: int, labels: map<string, string>, spec: Spec, status: Status)

  /** What the operator sets of a Deployment, and the replica counts that Kubernetes reports. */
  datatype Deployment = Deployment(
    labels: map<string, string>, replicas: int, template: Template, running: int, ready: int)

  datatype Child = Pvc | Secret | Service | Ingress

  /** `token` is what the Secret holds, if there is one. */
  datatype Store = Store(
    name: string, notebook: Option<Notebook>,
    children: set<Child>, token: string, deploy: Option<Deployment>,
    dirty: bool, timer: Option<int>, now: int)

  datatype Write =
    | Nothing
    | PutNotebook(notebook: Notebook)
    | DropNotebook
    | AddChild(child: Child)
    | AddSecret(token: string)
    | DropChild(child: Child)
    | PutDeploy(deploy: Deployment)
    | DropDeploy

  function Changed(s: Store, w: Write): Store
  {
    match w
    case Nothing => s
    case PutNotebook(nb) => s.(notebook := Some(nb))
    case DropNotebook => s.(notebook := None)
    case AddChild(c) => s.(children := s.children + {c})
    case AddSecret(token) => s.(children := s.children + {Secret}, token := token)
    case DropChild(c) => s.(children := s.children - {c})
    case PutDeploy(d) => s.(deploy := Some(d))
    case DropDeploy => s.(deploy := None)
  }

  /** Performs a write and queues the key if it changed something. */
  function Perform(s: Store, w: Write): Store
  {
    var t := Changed(s, w);
    if t == s then s else t.(dirty := true)
  }

  lemma NothingHappens(s: Store)
    ensures Perform(s, Nothing) == s
  {
  }

  /** RequeueAfter keeps the earlier of two timers. */
  function AddAfter(s: Store, at: int): Store
  {
    s.(timer := Some(if s.timer.Some? then Min(s.timer.value, at) else at))
  }

  // ----- what a notebook asks for -------------------------------------------------------

  function Replicas(spec: Spec): int
  {
    if spec.replicas.Some? then spec.replicas.value else 1
  }

  /** The Deployment the operator wants; its counts are reported by others. */
  function Wanted(name: string, nb: Notebook): Deployment
  {
    Deployment(nb.labels, Replicas(nb.spec), BuildTemplate(name, nb.spec.pod), 0, 0)
  }

  predicate Matches(d: Deployment, want: Deployment)
  {
    d.labels == want.labels && d.replicas == want.replicas && d.template == want.template
  }

  /** A patch carries the fields in which the object read differs from the one wanted. */
  function Patched(stored: Deployment, seen: Deployment, want: Deployment): Deployment
  {
    stored.(labels := if seen.labels == want.labels then stored.labels else want.labels,
            replicas := if seen.replicas == want.replicas then stored.replicas else want.replicas,
            template := if seen.template == want.template then stored.template else want.template)
  }

  /** Phase as a function of the replicas asked for and the counts reported. */
  function PhaseOf(spec: Spec, d: Deployment): Phase
  {
    if Replicas(spec) == 0 then if d.running == 0 then Paused else Pausing
    else if d.ready > 0 then Running else Provisioning
  }

  function DefaultToken(name: string): string { name + "-token-sec" }

  function AccessUrl(name: string, token: string): string
  {
    "https://" + name + ".local/lab?token=" + token
  }

  function Reported(name: string, nb: Notebook, phase: Phase, token: string): Notebook
  {
    nb.(status := nb.status.(phase := phase, pvcName := name + "-workspace", url := AccessUrl(name, token)))
  }

  function WithPhase(nb: Notebook, phase: Phase): Notebook
  {
    nb.(status := nb.status.(phase := phase))
  }

  /** The time of the last activity, or of creation if none was recorded. */
  function ActiveAt(nb: Notebook): int
  {
    if nb.status.lastActive.Some? then nb.status.lastActive.value else nb.created
  }
}
