/**
 The NotebookLab reconciler, one API call at a time. The three policies read the clock one
 after the other; these reads are steps of their own, as time may pass between them.
 */
module NotebookController {
  import opened Prelude
  import opened Durations
  import opened NotebookStore

  /**
   `nb` is the object as last read or returned by the server, `wait` the requeue delay so far
   (0 for none). `began` is history: when the pass read the object. No step looks at it.
   */
  datatype Pass =
    | Get
    | CheckPurge(nb: Notebook, began: int)
    | FindPvc(nb: Notebook)
    | PurgePvc(nb: Notebook)
    | PurgeNotebook(nb: Notebook)
    | CheckIdle(nb: Notebook, wait: int, began: int)
    | PauseIdle(nb: Notebook, wait: int, began: int)
    | CheckLifespan(nb: Notebook, wait: int, began: int)
    | PauseLifespan(nb: Notebook, wait: int, began: int)
    | GetChild(nb: Notebook, wait: int, began: int, child: Child)
    | MakeChild(nb: Notebook, wait: int, began: int, child: Child)
    | GetDeploy(nb: Notebook, wait: int, began: int)
    | MakeDeploy(nb: Notebook, wait: int, began: int)
    | PatchDeploy(nb: Notebook, wait: int, began: int, seen: Deployment)
    | ReadDeploy(nb: Notebook, wait: int, began: int)
    | ReadToken(nb: Notebook, wait: int, began: int, phase: Phase)
    | MakeToken(nb: Notebook, wait: int, began: int, phase: Phase)
    | WriteStatus(nb: Notebook, wait: int, began: int, result: Notebook)
    | WriteFailed(nb: Notebook)

  datatype Outcome = Outcome(write: Write, then_: Then)

  datatype Then = Next(pass: Pass) | Done(wait: int) | Err

  // ----- policies ------------------------------------------------------------------------

  function Policy(nb: Notebook): Lifecycle
  {
    if nb.spec.lifecycle.Some? then nb.spec.lifecycle.value else Lifecycle(0, 0, 0)
  }

  predicate PurgeArmed(nb: Notebook) { Policy(nb).purgeDays > 0 }

  predicate IdleArmed(nb: Notebook) { Policy(nb).idleMinutes > 0 && nb.status.phase == Running }

  predicate LifespanArmed(nb: Notebook) { Policy(nb).lifespanHours > 0 && nb.status.phase == Running }

  function PurgeLimit(nb: Notebook): int { Days(Policy(nb).purgeDays) }

  function IdleLimit(nb: Notebook): int { Minutes(Policy(nb).idleMinutes) }

  function LifespanLimit(nb: Notebook): int { Hours(Policy(nb).lifespanHours) }

  /** What is left of a limit, as 64-bit arithmetic has it. */
  function Remaining(now: int, from: int, limit: int): int { Wrap64(limit - Since(now, from)) }

  /** Zero stands for "no delay yet". */
  function Sooner(wait: int, remaining: int): int
  {
    if wait == 0 || remaining < wait then remaining else wait
  }

  // ----- calls -----------------------------------------------------------------------------

  /** A pause patches replicas to 0; the server answers with the stored object. */
  function Pause(s: Store, nb: Notebook, fault: bool): Option<Notebook>
  {
    if fault || s.notebook.None? then None
    else
      var stored := s.notebook.value;
      Some(if nb.spec.replicas == Some(0) then stored else stored.(spec := stored.spec.(replicas := Some(0))))
  }

  function FirstChild(nb: Notebook): Child
  {
    if nb.spec.pod.workspace.Some? then Pvc else Secret
  }

  function AfterChild(nb: Notebook, wait: int, began: int, child: Child): Pass
  {
    match child
    case Pvc => GetChild(nb, wait, began, Secret)
    case Secret => GetDeploy(nb, wait, began)
    case Service => GetChild(nb, wait, began, Ingress)
    case Ingress => ReadDeploy(nb, wait, began)
  }

  function Create(s: Store, child: Child): Write
  {
    if child == Secret then AddSecret(DefaultToken(s.name)) else AddChild(child)
  }

  /** The status write succeeds only on the object that was last read. */
  predicate Current(s: Store, nb: Notebook) { s.notebook == Some(nb) }

  /** One call of the pass; `fault` makes it fail without effect. */
  function Call(s: Store, pass: Pass, fault: bool): Outcome
  {
    match pass
    case Get =>
      Outcome(Nothing, if fault then Err else if s.notebook.None? then Done(0)
                       else Next(CheckPurge(s.notebook.value, s.now)))
    case CheckPurge(nb, began) =>
      Outcome(Nothing, Next(
        if !PurgeArmed(nb) then CheckIdle(nb, 0, began)
        else if Since(s.now, ActiveAt(nb)) >= PurgeLimit(nb) then FindPvc(nb)
        else CheckIdle(nb, Remaining(s.now, ActiveAt(nb), PurgeLimit(nb)), began)))
    case FindPvc(nb) =>
      // Only a PVC that is found is deleted; whatever goes wrong here, the purge goes on.
      Outcome(Nothing, Next(if fault || Pvc !in s.children then PurgeNotebook(nb) else PurgePvc(nb)))
    case PurgePvc(nb) => Outcome(if fault then Nothing else DropChild(Pvc), Next(PurgeNotebook(nb)))
    case PurgeNotebook(nb) =>
      if fault || s.notebook.None? then Outcome(Nothing, Err) else Outcome(DropNotebook, Done(0))
    case CheckIdle(nb, wait, began) =>
      Outcome(Nothing, Next(
        if !IdleArmed(nb) then CheckLifespan(nb, wait, began)
        else if Since(s.now, ActiveAt(nb)) >= IdleLimit(nb) then PauseIdle(nb, wait, began)
        else CheckLifespan(nb, Sooner(wait, Remaining(s.now, ActiveAt(nb), IdleLimit(nb))), began)))
    case PauseIdle(nb, wait, began) =>
      var r := Pause(s, nb, fault);
      if r.None? then Outcome(Nothing, Err)
      else Outcome(PutNotebook(r.value), Next(CheckLifespan(r.value, wait, began)))
    case CheckLifespan(nb, wait, began) =>
      Outcome(Nothing, Next(
        if !LifespanArmed(nb) then GetChild(nb, wait, began, FirstChild(nb))
        else if Since(s.now, nb.created) >= LifespanLimit(nb) then PauseLifespan(nb, wait, began)
        else GetChild(nb, Sooner(wait, Remaining(s.now, nb.created, LifespanLimit(nb))), began, FirstChild(nb))))
    case PauseLifespan(nb, wait, began) =>
      var r := Pause(s, nb, fault);
      if r.None? then Outcome(Nothing, Err)
      else Outcome(PutNotebook(r.value), Next(GetChild(r.value, wait, began, FirstChild(r.value))))
    case GetChild(nb, wait, began, child) =>
      Outcome(Nothing, Next(
        if fault then WriteFailed(nb)
        else if child in s.children then AfterChild(nb, wait, began, child)
        else MakeChild(nb, wait, began, child)))
    case MakeChild(nb, wait, began, child) =>
      if fault || child in s.children then Outcome(Nothing, Next(WriteFailed(nb)))
      else Outcome(Create(s, child), Next(AfterChild(nb, wait, began, child)))
    case GetDeploy(nb, wait, began) =>
      Outcome(Nothing, Next(
        if fault then WriteFailed(nb)
        else if s.deploy.None? then MakeDeploy(nb, wait, began)
        else PatchDeploy(nb, wait, began, s.deploy.value)))
    case MakeDeploy(nb, wait, began) =>
      if fault || s.deploy.Some? then Outcome(Nothing, Next(WriteFailed(nb)))
      else Outcome(PutDeploy(Wanted(s.name, nb)), Next(GetChild(nb, wait, began, Service)))
    case PatchDeploy(nb, wait, began, seen) =>
      if fault || s.deploy.None? then Outcome(Nothing, Next(WriteFailed(nb)))
      else Outcome(PutDeploy(Patched(s.deploy.value, seen, Wanted(s.name, nb))),
                   Next(GetChild(nb, wait, began, Service)))
    case ReadDeploy(nb, wait, began) =>
      Outcome(Nothing,
        if fault then Err
        else if s.deploy.None? then Next(WriteStatus(nb, wait, began, WithPhase(nb, Provisioning)))
        else Next(ReadToken(nb, wait, began, PhaseOf(nb.spec, s.deploy.value))))
    case ReadToken(nb, wait, began, phase) =>
      // A failure falls back to the default token, in silence.
      Outcome(Nothing, Next(
        if fault then WriteStatus(nb, wait, began, Reported(s.name, nb, phase, DefaultToken(s.name)))
        else if Secret in s.children then WriteStatus(nb, wait, began, Reported(s.name, nb, phase, s.token))
        else MakeToken(nb, wait, began, phase)))
    case MakeToken(nb, wait, began, phase) =>
      Outcome(if fault || Secret in s.children then Nothing else Create(s, Secret),
              Next(WriteStatus(nb, wait, began, Reported(s.name, nb, phase, DefaultToken(s.name)))))
    case WriteStatus(nb, wait, _, result) =>
      if fault || !Current(s, nb) then Outcome(Nothing, Err)
      else Outcome(PutNotebook(result), Done(wait))
    case WriteFailed(nb) =>
      Outcome(if fault || !Current(s, nb) then Nothing else PutNotebook(WithPhase(nb, Failed)), Err)
  }

  /** Reading the clock is not an API call. */
  predicate Silent(p: Pass) { p.CheckPurge? || p.CheckIdle? || p.CheckLifespan? }

  /** A policy that is not armed does not even read the clock. */
  predicate Moot(p: Pass)
  {
    (p.CheckPurge? && !PurgeArmed(p.nb)) || (p.CheckIdle? && !IdleArmed(p.nb)) || (p.CheckLifespan? && !LifespanArmed(p.nb))
  }

  /** Calls left at most. */
  function Rank(p: Pass): nat
  {
    match p
    case Get => 22 case CheckPurge(_, _) => 21
    case FindPvc(_) => 3 case PurgePvc(_) => 2 case PurgeNotebook(_) => 1
    case CheckIdle(_, _, _) => 20 case PauseIdle(_, _, _) => 19
    case CheckLifespan(_, _, _) => 18 case PauseLifespan(_, _, _) => 17
    case GetChild(_, _, _, c) => (match c case Pvc => 16 case Secret => 14 case Service => 10 case Ingress => 8)
    case MakeChild(_, _, _, c) => (match c case Pvc => 15 case Secret => 13 case Service => 9 case Ingress => 7)
    case GetDeploy(_, _, _) => 12 case MakeDeploy(_, _, _) => 11 case PatchDeploy(_, _, _, _) => 11
    case ReadDeploy(_, _, _) => 6 case ReadToken(_, _, _, _) => 5 case MakeToken(_, _, _, _) => 4
    case WriteStatus(_, _, _, _) => 3 case WriteFailed(_) => 2
  }

  /** Every call brings the pass nearer to its end. */
  lemma CallAdvances(s: Store, p: Pass, fault: bool)
    ensures var t := Call(s, p, fault).then_; t.Next? ==> Rank(t.pass) < Rank(p)
  {
    match p {
      case Get => case CheckPurge(_, _) =>
      case FindPvc(_) => case PurgePvc(_) => case PurgeNotebook(_) =>
      case CheckIdle(_, _, _) => case PauseIdle(_, _, _) =>
      case CheckLifespan(nb, wait, began) => case PauseLifespan(nb, wait, began) =>
      case GetChild(_, _, _, c) => match c { case Pvc => case Secret => case Service => case Ingress => }
      case MakeChild(_, _, _, c) => match c { case Pvc => case Secret => case Service => case Ingress => }
      case GetDeploy(_, _, _) => case MakeDeploy(_, _, _) => case PatchDeploy(_, _, _, _) =>
      case ReadDeploy(_, _, _) => case ReadToken(_, _, _, _) => case MakeToken(_, _, _, _) =>
      case WriteStatus(_, _, _, _) => case WriteFailed(_) =>
    }
  }

  // ----- whole passes -----------------------------------------------------------------------

  /** What a pass meets: which of its steps fail, and how much time goes by before each. */
  datatype Script = Script(faults: nat -> bool, ticks: nat -> nat)

  function Later(s: Store, ticks: nat): Store { s.(now := s.now + ticks) }

  /** The store in which the next step of a pass is made. */
  function Before(s: Store, p: Pass, script: Script, steps: nat): Store
  {
    if Moot(p) then s else Later(s, script.ticks(steps))
  }

  function Count(p: Pass, steps: nat): nat
  {
    if Moot(p) then steps else steps + 1
  }

  /** `steps` counts API calls and clock readings. */
  datatype Finished = Finished(st: Store, verdict: Then, steps: nat)

  /** The rest of a pass that nobody interrupts, though time goes by. */
  function Finish(s: Store, p: Pass, script: Script, steps: nat): (r: Finished)
    ensures !r.verdict.Next?
    decreases Rank(p)
  {
    var u := Before(s, p, script, steps);
    var out := Call(u, p, script.faults(steps));
    var st := Perform(u, out.write);
    CallAdvances(u, p, script.faults(steps));
    if out.then_.Next? then Finish(st, out.then_.pass, script, Count(p, steps))
    else Finished(st, out.then_, Count(p, steps))
  }

  /** One step of a whole pass. */
  lemma Unfold(s: Store, p: Pass, script: Script, steps: nat)
    ensures var u := Before(s, p, script, steps);
            var out := Call(u, p, script.faults(steps));
            var st := if out.write == Nothing then u else Perform(u, out.write);
            Finish(s, p, script, steps) ==
            if out.then_.Next? then Finish(st, out.then_.pass, script, Count(p, steps))
            else Finished(st, out.then_, Count(p, steps))
  {
    hide Call;
  }
}
