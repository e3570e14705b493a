/** The notebook controller, its users, Kubernetes and the clock as one machine; `Do` is total. */
module NotebookSystem {
  import opened Prelude
  import opened NotebookStore
  import opened NotebookController

  datatype System = System(st: Store, pass: Option<Pass>)

  datatype Action =
    // users and the agent that reports activity
    | CreateNotebook(labels: map<string, string>, spec: Spec)
    | EditNotebook(labels: map<string, string>, spec: Spec)
    | RemoveNotebook
    | Touch(at: int)
    // Kubernetes, garbage collection and other clients
    | RemoveChild(child: Child)
    | SetToken(token: string)
    | EditDeploy(deploy: Deployment)
    | RemoveDeploy
    | Tick(dt: nat)
    // work queue and reconciler
    | Fire
    | Start
    | Step(fault: bool)

  /** What everybody but the operator writes. Activity is never reported ahead of time. */
  function OutsideWrite(s: Store, a: Action): Write
  {
    match a
    case CreateNotebook(labels, spec) =>
      if s.notebook.Some? then Nothing
      else PutNotebook(Notebook(s.now, labels, spec, Status(NoPhase, "", "", None)))
    case EditNotebook(labels, spec) =>
      if s.notebook.None? then Nothing else PutNotebook(s.notebook.value.(labels := labels, spec := spec))
    case RemoveNotebook => DropNotebook
    case Touch(at) =>
      if s.notebook.None? || at > s.now then Nothing
      else PutNotebook(s.notebook.value.(status := s.notebook.value.status.(lastActive := Some(at))))
    case RemoveChild(c) => DropChild(c)
    case SetToken(token) => if Secret in s.children then AddSecret(token) else Nothing
    case EditDeploy(d) => if s.deploy.None? then Nothing else PutDeploy(d)
    case RemoveDeploy => DropDeploy
    case _ => Nothing
  }

  /** End of a pass: an error queues the key at once, a positive delay sets its timer. */
  function Settle(s: System, out: Outcome): System
  {
    var st := Perform(s.st, out.write);
    match out.then_
    case Next(p) => System(st, Some(p))
    case Done(wait) => System(if wait > 0 then AddAfter(st, st.now + wait) else st, None)
    case Err => System(st.(dirty := true), None)
  }

  function Do(s: System, a: Action): System
  {
    match a
    case Tick(dt) => s.(st := s.st.(now := s.st.now + dt))
    case Fire =>
      if s.st.timer.Some? && s.st.timer.value <= s.st.now then s.(st := s.st.(timer := None, dirty := true)) else s
    case Start => if s.pass.Some? then s else System(s.st.(dirty := false), Some(Get))
    case Step(fault) => if s.pass.Some? then Settle(s, Call(s.st, s.pass.value, fault)) else s
    case _ => s.(st := Perform(s.st, OutsideWrite(s.st, a)))
  }

  function Run(s: System, acts: seq<Action>): System
    decreases |acts|
  {
    if acts == [] then s else Run(Do(s, acts[0]), acts[1..])
  }

  predicate Initial(s: System)
  {
    s.pass.None? && s.st.notebook.None?
  }

  lemma RunCons(s: System, a: Action, rest: seq<Action>)
    ensures Run(s, [a] + rest) == Run(Do(s, a), rest)
  {
    hide Do;
    assert ([a] + rest)[1..] == rest;
  }

  /**
   A pass that nobody interrupts, with time going by between its steps, is a run: what holds in
   every run holds after a reconcile.
   */
  lemma {:induction false} PassIsRun(s: System, script: Script, steps: nat) returns (acts: seq<Action>)
    requires s.pass.Some?
    ensures var f := Finish(s.st, s.pass.value, script, steps);
            Run(s, acts) == Settle(s.(st := f.st), Outcome(Nothing, f.verdict))
    ensures |acts| <= 2 * Rank(s.pass.value) && forall j :: 0 <= j < |acts| ==> acts[j].Step? || acts[j].Tick?
    decreases Rank(s.pass.value)
  {
    hide Call, Perform;
    var p := s.pass.value;
    var u := s.(st := Before(s.st, p, script, steps));
    var t := Tick(if Moot(p) then 0 else script.ticks(steps));
    var a := Step(script.faults(steps));
    var out := Call(u.st, p, script.faults(steps));
    assert Do(s, t) == u;
    CallAdvances(u.st, p, script.faults(steps));
    if out.then_.Next? {
      var rest := PassIsRun(Do(u, a), script, Count(p, steps));
      acts := [t] + ([a] + rest);
      RunCons(s, t, [a] + rest);
      RunCons(u, a, rest);
    } else {
      acts := [t] + ([a] + []);
      RunCons(s, t, [a] + []);
      RunCons(u, a, []);
      NothingHappens(Perform(u.st, out.write));
    }
  }
}
