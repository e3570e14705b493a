/**
 What a user can read off a notebook and count on, in the user's own terms: replicas, minutes,
 hours and days as the spec has them. At rest the phase says what the Deployment reports, every
 policy that is set has a timer, and what the operator deletes or pauses is overdue.
 */
module NotebookTells {
  import opened Prelude
  import opened Durations
  import opened PodBuild
  import opened PodServes
  import opened NotebookStore
  import opened NotebookController
  import opened NotebookSystem
  import opened NotebookHealing
  import opened NotebookPasses
  import D = NotebookDeadlines
  import P = NotebookPurge

  /** The replicas a spec asks for; one, if it does not say. */
  function Asked(nb: Notebook): int
  {
    match nb.spec.replicas case Some(n) => n case None => 1
  }

  function LastActive(nb: Notebook): int
  {
    match nb.status.lastActive case Some(at) => at case None => nb.created
  }

  ghost predicate AtRest(t: System) { t.pass.None? && !t.st.dirty && t.st.notebook.Some? }

  /** The four phases, by the replicas asked for and those the Deployment reports. */
  ghost predicate PhaseRight(nb: Notebook, d: Deployment)
  {
    && (nb.status.phase == Running <==> Asked(nb) != 0 && d.ready > 0)
    && (nb.status.phase == Provisioning <==> Asked(nb) != 0 && d.ready <= 0)
    && (nb.status.phase == Paused <==> Asked(nb) == 0 && d.running == 0)
    && (nb.status.phase == Pausing <==> Asked(nb) == 0 && d.running != 0)
  }

  ghost predicate ChildrenThere(s: Store, nb: Notebook)
  {
    && Secret in s.children && Service in s.children && Ingress in s.children
    && (nb.spec.pod.workspace.Some? ==> Pvc in s.children)
  }

  lemma HealedTells(s: Store, nb: Notebook)
    requires Healed(s, nb, false)
    ensures s.deploy.Some? && ChildrenThere(s, nb)
    ensures var d := s.deploy.value;
            && d.labels == nb.labels && d.replicas == Asked(nb)
            && d.template == BuildTemplate(s.name, nb.spec.pod) && Serves(d.template, s.name, nb.spec.pod)
            && PhaseRight(nb, d) && nb.status.pvcName == s.name + "-workspace"
  {
    TemplateServes(s.name, nb.spec.pod);
    hide BuildTemplate, Serves;
  }

  /**
   In every run a notebook at rest has all its children; its Deployment has its labels, the replicas
   it asks for and a template that serves its spec; and its phase says what the Deployment reports.
   */
  lemma RestTells(s: System, acts: seq<Action>)
    requires Initial(s) && AtRest(Run(s, acts))
    ensures var t := Run(s, acts).st;
            var nb := t.notebook.value;
            && t.deploy.Some? && ChildrenThere(t, nb)
            && t.deploy.value.labels == nb.labels && t.deploy.value.replicas == Asked(nb)
            && t.deploy.value.template == BuildTemplate(t.name, nb.spec.pod)
            && Serves(t.deploy.value.template, t.name, nb.spec.pod)
            && PhaseRight(nb, t.deploy.value) && nb.status.pvcName == t.name + "-workspace"
  {
    hide Run, Healed, Serves, PhaseRight, ChildrenThere, BuildTemplate;
    QuiescentMeansHealed(s, acts);
    HealedTells(Run(s, acts).st, Run(s, acts).st.notebook.value);
  }

  /** And its URL opens it with the stored token, if no read of the token failed. */
  lemma RestUrl(s: System, acts: seq<Action>)
    requires Initial(s) && TokensReadAll(s, acts) && AtRest(Run(s, acts))
    ensures var t := Run(s, acts).st;
            t.notebook.value.status.url == "https://" + t.name + ".local/lab?token=" + t.token
  {
    hide Run;
    QuiescentUrlRight(s, acts);
  }

  // ----- deadlines ------------------------------------------------------------------------------

  /** The timer rings no later than this. */
  ghost predicate RingsBy(timer: Option<int>, at: int) { timer.Some? && timer.value <= at }

  /**
   In every run a notebook at rest has a timer, late at most by the length of a pass, for each policy
   that is set: purge in any phase; idle timeout and lifespan while it asks for replicas and has a
   ready one. Beyond the bounds the 64-bit arithmetic of the thresholds is not exact.
   */
  lemma RestTimed(s: System, acts: seq<Action>, slack: int)
    requires Initial(s) && D.PunctualRun(s, acts, slack) && AtRest(Run(s, acts))
    requires Run(s, acts).st.notebook.value.spec.lifecycle.Some?
    ensures var t := Run(s, acts).st;
            var nb := t.notebook.value;
            var l := nb.spec.lifecycle.value;
            && t.deploy.Some?
            && (0 < l.purgeDays <= 106_751 ==>
                  RingsBy(t.timer, LastActive(nb) + l.purgeDays * 86_400_000_000_000 + slack))
            && (0 < l.idleMinutes <= 153_722_867 && Asked(nb) != 0 && t.deploy.value.ready > 0 ==>
                  RingsBy(t.timer, LastActive(nb) + l.idleMinutes * 60_000_000_000 + slack))
            && (0 < l.lifespanHours <= 2_562_047 && Asked(nb) != 0 && t.deploy.value.ready > 0 ==>
                  RingsBy(t.timer, nb.created + l.lifespanHours * 3_600_000_000_000 + slack))
  {
    hide Run, Serves, ChildrenThere, Days, Hours, Minutes;
    RestTells(s, acts);
    D.NoLostDeadline(s, acts, slack);
    ExactLimits(Run(s, acts).st.notebook.value);
  }

  /** Within the bounds the thresholds are the policies' own numbers. */
  lemma ExactLimits(nb: Notebook)
    requires nb.spec.lifecycle.Some?
    ensures var l := nb.spec.lifecycle.value;
            && (0 < l.purgeDays <= 106_751 ==> PurgeLimit(nb) == l.purgeDays * 86_400_000_000_000)
            && (0 < l.idleMinutes <= 153_722_867 ==> IdleLimit(nb) == l.idleMinutes * 60_000_000_000)
            && (0 < l.lifespanHours <= 2_562_047 ==> LifespanLimit(nb) == l.lifespanHours * 3_600_000_000_000)
  {
    var l := nb.spec.lifecycle.value;
    if 0 < l.purgeDays <= 106_751 { ThresholdsExact(l.purgeDays); }
    if 0 < l.idleMinutes <= 153_722_867 { ThresholdsExact(l.idleMinutes); }
    if 0 < l.lifespanHours <= 2_562_047 { ThresholdsExact(l.lifespanHours); }
    hide Days, Hours, Minutes;
  }

  /**
   In every run: when the operator deletes the PVC or the notebook, the notebook it read is to be
   purged and, within the bounds, has been inactive for that many days.
   */
  lemma DeletesOnlyInactive(s: System, acts: seq<Action>, fault: bool)
    requires Initial(s)
    requires var t := Run(s, acts);
             && t.pass.Some?
             && (var w := Call(t.st, t.pass.value, fault).write; w.DropChild? || w.DropNotebook? || w.DropDeploy?)
    ensures var t := Run(s, acts);
            var p := t.pass.value;
            && !p.Get? && p.nb.spec.lifecycle.Some?
            && (t.st.dirty || t.st.notebook == Some(p.nb))
            && var days := p.nb.spec.lifecycle.value.purgeDays;
               days > 0 && (days <= 106_751 ==> t.st.now >= LastActive(p.nb) + days * 86_400_000_000_000)
  {
    hide Run, Call, Days, Hours, Minutes;
    P.DeletesOnlyWhenDue(s, acts, fault);
    var nb := Run(s, acts).pass.value.nb;
    ExactLimits(nb);
  }

  // ----- pauses ----------------------------------------------------------------------------------

  /** Overdue by the idle timeout, or by the lifespan, of a running notebook. */
  ghost predicate Overdue(nb: Notebook, now: int)
  {
    && nb.status.phase == Running && nb.spec.lifecycle.Some?
    && var l := nb.spec.lifecycle.value;
       || (l.idleMinutes > 0 && now >= LastActive(nb) + l.idleMinutes * 60_000_000_000)
       || (l.lifespanHours > 0 && now >= nb.created + l.lifespanHours * 3_600_000_000_000)
  }

  ghost predicate Bounded(nb: Notebook)
  {
    nb.spec.lifecycle.Some? ==>
      var l := nb.spec.lifecycle.value;
      l.purgeDays <= 106_751 && l.idleMinutes <= 153_722_867 && l.lifespanHours <= 2_562_047
  }

  lemma OverdueIsDue(nb: Notebook, now: int)
    requires Bounded(nb) && nb.created <= now && LastActive(nb) <= now
    ensures Overdue(nb, now) <==> IdleDue(nb, now) || LifespanDue(nb, now)
  {
    DueExactly(nb, now);
    if nb.spec.lifecycle.Some? { ExactLimits(nb); }
    hide IdleLimit, LifespanLimit, PurgeLimit, Since;
  }

  /**
   A pass without failures, however long its steps take, over a notebook that is overdue: unless it
   is purged, it asks for no replicas, its Deployment has none set, and it is paused or pausing.
   */
  lemma OverdueIsPaused(s: Store, nb: Notebook, ticks: nat -> nat)
    requires Current(s, nb) && Bounded(nb) && nb.created <= s.now && LastActive(nb) <= s.now && Overdue(nb, s.now)
    ensures var t := WholePass(s, ticks);
            t.notebook.Some? ==>
              && t.notebook.value.spec.replicas == Some(0)
              && t.notebook.value.spec == nb.spec.(replicas := Some(0))
              && t.deploy.Some? && t.deploy.value.replicas == 0
              && (t.notebook.value.status.phase == Paused <==> t.deploy.value.running == 0)
              && (t.notebook.value.status.phase == Pausing <==> t.deploy.value.running != 0)
  {
    hide WholePass, IdleDue, LifespanDue, PurgeDue;
    OverdueIsDue(nb, s.now);
    ForcedPause(s, nb, ticks);
  }

  /** And one that is not overdue when the pass ends keeps its spec, unless it is purged. */
  lemma OnlyOverdueIsPaused(s: Store, nb: Notebook, ticks: nat -> nat)
    requires Current(s, nb) && Bounded(nb) && nb.created <= s.now && LastActive(nb) <= s.now
    requires !Overdue(nb, WholePass(s, ticks).now)
    ensures var t := WholePass(s, ticks); t.notebook.Some? ==> t.notebook.value.spec == nb.spec
  {
    hide Finish, IdleDue, LifespanDue, PurgeDue, Overdue, LifespanWait, IdleWait, PurgeWait, Healed;
    var c := PassHeals(s, nb, ticks);
    var end := WholePass(s, ticks).now;
    OverdueIsDue(nb, end);
    DueStaysDue(nb, c.idle, end);
    DueStaysDue(nb, c.lifespan, end);
  }

  // ----- what a pass may write ----------------------------------------------------------------------

  /** A phase that a status write may store, by the replicas asked for. */
  ghost predicate MayStore(nb: Notebook, phase: Phase)
  {
    && phase != NoPhase && phase != Failed
    && (phase == Running ==> Asked(nb) != 0)
    && (phase == Paused || phase == Pausing ==> Asked(nb) == 0)
  }

  ghost predicate Honest(p: Pass)
  {
    match p
    case GetChild(nb, _, _, c) => c == Pvc ==> nb.spec.pod.workspace.Some?
    case MakeChild(nb, _, _, c) => c == Pvc ==> nb.spec.pod.workspace.Some?
    case ReadToken(nb, _, _, phase) => MayStore(nb, phase)
    case MakeToken(nb, _, _, phase) => MayStore(nb, phase)
    case WriteStatus(nb, _, _, result) => result == nb.(status := result.status) && MayStore(nb, result.status.phase)
    case _ => true
  }

  lemma CallHonest(s: Store, p: Pass, fault: bool)
    requires Honest(p)
    ensures var t := Call(s, p, fault).then_; t.Next? ==> Honest(t.pass)
  {
    hide Remaining, Since, PurgeLimit, IdleLimit, LifespanLimit, Wanted, Patched, AccessUrl, DefaultToken;
    match p {
      case Get => case CheckPurge(_, _) => case FindPvc(_) => case PurgePvc(_) => case PurgeNotebook(_) =>
      case CheckIdle(_, _, _) => case PauseIdle(_, _, _) =>
      case CheckLifespan(_, _, _) => case PauseLifespan(_, _, _) =>
      case GetChild(_, _, _, c) => match c { case Pvc => case Secret => case Service => case Ingress => }
      case MakeChild(_, _, _, c) => match c { case Pvc => case Secret => case Service => case Ingress => }
      case GetDeploy(_, _, _) => case MakeDeploy(_, _, _) => case PatchDeploy(_, _, _, _) =>
      case ReadDeploy(_, _, _) => case ReadToken(_, _, _, _) => case MakeToken(_, _, _, _) =>
      case WriteStatus(_, _, _, _) => case WriteFailed(_) =>
    }
  }

  ghost predicate AllHonest(s: System) { s.pass.Some? ==> Honest(s.pass.value) }

  lemma {:induction false} RunKeepsHonest(s: System, acts: seq<Action>)
    requires AllHonest(s)
    ensures AllHonest(Run(s, acts))
    decreases |acts|
  {
    if acts != [] {
      var a := acts[0];
      if a.Step? && s.pass.Some? { CallHonest(s.st, s.pass.value, a.fault); }
      hide Call, Honest, Perform, OutsideWrite;
      FreshHonest();
      RunKeepsHonest(Do(s, a), acts[1..]);
    }
  }

  lemma FreshHonest()
    ensures Honest(Get)
  {
  }

  /**
   In every run: a step of the operator that adds a PVC holds a spec with a workspace; one that adds the
   Secret puts the default token in, and none changes a token that is there; one that stores another phase says Running only of a notebook that asks for replicas, Paused and Pausing only of one
   that asks for none, and Failed only at the end of a pass that failed, which queues the key again.
   */
  lemma StepsAreHonest(s: System, acts: seq<Action>, fault: bool)
    requires Initial(s) && Run(s, acts).pass.Some?
    ensures var t := Run(s, acts);
            var u := Do(t, Step(fault));
            && (Pvc in u.st.children && Pvc !in t.st.children ==>
                  !t.pass.value.Get? && t.pass.value.nb.spec.pod.workspace.Some?)
            && (Secret in t.st.children ==> u.st.token == t.st.token)
            && (Secret in u.st.children && Secret !in t.st.children ==> u.st.token == t.st.name + "-token-sec")
            && (u.st.notebook.Some? && t.st.notebook.Some?
                && u.st.notebook.value.status.phase != t.st.notebook.value.status.phase ==>
                  var phase := u.st.notebook.value.status.phase;
                  || MayStore(u.st.notebook.value, phase)
                  || (phase == Failed && u.pass.None? && u.st.dirty))
  {
    hide Run;
    assert AllHonest(s);
    RunKeepsHonest(s, acts);
    var t := Run(s, acts);
    StepAddsHonestly(t, fault);
    StepSaysHonestly(t, fault);
  }

  lemma StepAddsHonestly(t: System, fault: bool)
    requires t.pass.Some? && Honest(t.pass.value)
    ensures var u := Do(t, Step(fault));
            && (Pvc in u.st.children && Pvc !in t.st.children ==>
                  !t.pass.value.Get? && t.pass.value.nb.spec.pod.workspace.Some?)
            && (Secret in t.st.children ==> u.st.token == t.st.token)
            && (Secret in u.st.children && Secret !in t.st.children ==> u.st.token == t.st.name + "-token-sec")
  {
    hide Remaining, Since, PurgeLimit, IdleLimit, LifespanLimit, Wanted, Patched, AccessUrl, MayStore, PhaseOf;
    match t.pass.value {
      case Get => case CheckPurge(_, _) => case FindPvc(_) => case PurgePvc(_) => case PurgeNotebook(_) =>
      case CheckIdle(_, _, _) => case PauseIdle(_, _, _) =>
      case CheckLifespan(_, _, _) => case PauseLifespan(_, _, _) =>
      case GetChild(_, _, _, _) => case MakeChild(_, _, _, _) =>
      case GetDeploy(_, _, _) => case MakeDeploy(_, _, _) => case PatchDeploy(_, _, _, _) =>
      case ReadDeploy(_, _, _) => case ReadToken(_, _, _, _) => case MakeToken(_, _, _, _) =>
      case WriteStatus(_, _, _, _) => case WriteFailed(_) =>
    }
  }

  lemma StepSaysHonestly(t: System, fault: bool)
    requires t.pass.Some? && Honest(t.pass.value)
    ensures var u := Do(t, Step(fault));
            u.st.notebook.Some? && t.st.notebook.Some?
            && u.st.notebook.value.status.phase != t.st.notebook.value.status.phase ==>
              var phase := u.st.notebook.value.status.phase;
              || MayStore(u.st.notebook.value, phase)
              || (phase == Failed && u.pass.None? && u.st.dirty)
  {
    hide Remaining, Since, PurgeLimit, IdleLimit, LifespanLimit, Wanted, Patched, AccessUrl, DefaultToken;
    match t.pass.value {
      case Get => case CheckPurge(_, _) => case FindPvc(_) => case PurgePvc(_) => case PurgeNotebook(_) =>
      case CheckIdle(_, _, _) => case PauseIdle(_, _, _) =>
      case CheckLifespan(_, _, _) => case PauseLifespan(_, _, _) =>
      case GetChild(_, _, _, _) => case MakeChild(_, _, _, _) =>
      case GetDeploy(_, _, _) => case MakeDeploy(_, _, _) => case PatchDeploy(_, _, _, _) =>
      case ReadDeploy(_, _, _) => case ReadToken(_, _, _, _) => case MakeToken(_, _, _, _) =>
      case WriteStatus(_, _, _, _) => case WriteFailed(_) =>
    }
  }

  /** A child that cannot be read or made: the phase of the object read becomes Failed and the key is queued. */
  lemma ChildErrorTells(s: System, acts: seq<Action>)
    requires Initial(s)
    requires var t := Run(s, acts);
             && t.pass.Some?
             && (t.pass.value.GetChild? || t.pass.value.MakeChild? || t.pass.value.GetDeploy?
                 || t.pass.value.MakeDeploy? || t.pass.value.PatchDeploy?)
             && t.st.notebook == Some(t.pass.value.nb)
    ensures var u := Do(Do(Run(s, acts), Step(true)), Step(false));
            && u.pass.None? && u.st.dirty && u.st.notebook.Some? && u.st.notebook.value.status.phase == Failed
  {
    hide Run;
  }

  /** A Secret that is gone when the token is read is made again, with the default token. */
  lemma SecretIsRemade(t: System)
    requires t.pass.Some? && t.pass.value.ReadToken? && Secret !in t.st.children
    ensures var u := Do(Do(t, Step(false)), Step(false)).st;
            Secret in u.children && u.token == t.st.name + "-token-sec"
  {
    TokenIsMissed(t);
    hide Do;
    TokenIsMade(Do(t, Step(false)));
  }

  lemma TokenIsMissed(t: System)
    requires t.pass.Some? && t.pass.value.ReadToken? && Secret !in t.st.children
    ensures var u := Do(t, Step(false)); u.st == t.st && u.pass.Some? && u.pass.value.MakeToken?
  {
  }

  lemma TokenIsMade(t: System)
    requires t.pass.Some? && t.pass.value.MakeToken? && Secret !in t.st.children
    ensures var u := Do(t, Step(false)).st; Secret in u.children && u.token == t.st.name + "-token-sec"
  {
    hide Reported;
  }
}
