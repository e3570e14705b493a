/**
 Quiescent means healed: when the key of a stored NotebookLab is neither queued nor being
 reconciled, every child exists, the Deployment carries exactly what the spec asks for, and the
 stored phase is the phase of spec and Deployment as they are now. Whatever users, Kubernetes or
 garbage collection did to the children has been put right, or the key is queued.

 The access URL agrees with the Secret too, if no read of the token failed (`TokensRead`):
 such a failure is passed over, and a default token is published.
 */
module NotebookHealing {
  import opened Prelude
  import opened PodBuild
  import opened NotebookStore
  import opened NotebookController
  import opened NotebookSystem
  import D = NotebookDeadlines

  ghost predicate PvcThere(s: Store, nb: Notebook)
  {
    nb.spec.pod.workspace.Some? ==> Pvc in s.children
  }

  ghost predicate DeployRight(s: Store, nb: Notebook)
  {
    s.deploy.Some? && Matches(s.deploy.value, Wanted(s.name, nb))
  }

  ghost predicate ChildrenRight(s: Store, nb: Notebook)
  {
    PvcThere(s, nb) && Secret in s.children && DeployRight(s, nb) && Service in s.children && Ingress in s.children
  }

  /** Everything is as the spec asks; `tokens` says whether the URL is claimed as well. */
  ghost predicate Healed(s: Store, nb: Notebook, tokens: bool)
  {
    && ChildrenRight(s, nb)
    && nb.status.phase == PhaseOf(nb.spec, s.deploy.value)
    && nb.status.pvcName == s.name + "-workspace"
    && (tokens ==> nb.status.url == AccessUrl(s.name, s.token))
  }

  /** What a pass has seen to so far. */
  ghost predicate Seen(s: Store, p: Pass, tokens: bool)
  {
    match p
    case GetChild(nb, _, _, c) => SeenChild(s, nb, c)
    case MakeChild(nb, _, _, c) => SeenChild(s, nb, c)
    case GetDeploy(nb, _, _) => PvcThere(s, nb) && Secret in s.children
    case MakeDeploy(nb, _, _) => PvcThere(s, nb) && Secret in s.children
    case PatchDeploy(nb, _, _, seen) => PvcThere(s, nb) && Secret in s.children && s.deploy == Some(seen)
    case ReadDeploy(nb, _, _) => ChildrenRight(s, nb)
    case ReadToken(nb, _, _, phase) => ChildrenRight(s, nb) && phase == PhaseOf(nb.spec, s.deploy.value)
    case MakeToken(_, _, _, _) => false
    case WriteStatus(nb, _, _, result) =>
      && ChildrenRight(s, nb)
      && result == nb.(status := result.status)
      && Healed(s, result, tokens)
    case _ => true
  }

  ghost predicate SeenChild(s: Store, nb: Notebook, c: Child)
  {
    match c
    case Pvc => true
    case Secret => PvcThere(s, nb)
    case Service => PvcThere(s, nb) && Secret in s.children && DeployRight(s, nb)
    case Ingress => PvcThere(s, nb) && Secret in s.children && DeployRight(s, nb) && Service in s.children
  }

  /** While nothing has queued the key again, the pass holds the stored object and has seen to it. */
  ghost predicate Follows(s: Store, p: Pass, tokens: bool)
  {
    !s.dirty ==> (p.Get? || s.notebook == D.Held(p)) && Seen(s, p, tokens)
  }

  ghost predicate Sound(s: System, tokens: bool)
  {
    match s.pass
    case Some(p) => Follows(s.st, p, tokens)
    case None => !s.st.dirty && s.st.notebook.Some? ==> Healed(s.st, s.st.notebook.value, tokens)
  }

  ghost predicate TokensRead(s: System, a: Action)
  {
    a.Step? && s.pass.Some? && s.pass.value.ReadToken? ==> !a.fault
  }

  ghost predicate TokensReadAll(s: System, acts: seq<Action>)
    decreases |acts|
  {
    acts != [] ==> TokensRead(s, acts[0]) && TokensReadAll(Do(s, acts[0]), acts[1..])
  }

  // ----- every step --------------------------------------------------------------------------

  lemma PatchHeals(stored: Deployment, want: Deployment)
    ensures Matches(Patched(stored, stored, want), want)
  {
  }

  lemma EarlyFollows(s: Store, p: Pass, fault: bool, tokens: bool)
    requires Silent(p) || p.Get? || p.FindPvc? || p.PurgePvc? || p.PurgeNotebook? || p.PauseIdle? || p.PauseLifespan?
    requires Follows(s, p, tokens) && Call(s, p, fault).then_.Next?
    ensures var out := Call(s, p, fault); Follows(Perform(s, out.write), out.then_.pass, tokens)
  {
    hide Wanted, Sooner, Remaining, PurgeLimit, IdleLimit, LifespanLimit;
    match p {
      case Get => case CheckPurge(_, _) => case FindPvc(_) => case PurgePvc(_) => case PurgeNotebook(_) =>
      case CheckIdle(_, _, _) => case PauseIdle(_, _, _) =>
      case CheckLifespan(_, _, _) => case PauseLifespan(_, _, _) =>
    }
  }

  lemma ChildFollows(s: Store, p: Pass, fault: bool, tokens: bool)
    requires p.GetChild? || p.MakeChild?
    requires Follows(s, p, tokens)
    ensures var out := Call(s, p, fault);
            out.then_.Next? && Follows(Perform(s, out.write), out.then_.pass, tokens)
  {
    hide Wanted, DefaultToken, Matches;
    match p.child { case Pvc => case Secret => case Service => case Ingress => }
  }

  lemma DeployFollows(s: Store, p: Pass, fault: bool, tokens: bool)
    requires p.GetDeploy? || p.MakeDeploy? || p.PatchDeploy?
    requires Follows(s, p, tokens)
    ensures var out := Call(s, p, fault);
            out.then_.Next? && Follows(Perform(s, out.write), out.then_.pass, tokens)
  {
    hide BuildTemplate;
    match p { case GetDeploy(_, _, _) => case MakeDeploy(_, _, _) => case PatchDeploy(_, _, _, _) => }
  }

  lemma ReportFollows(s: Store, p: Pass, fault: bool, tokens: bool)
    requires p.ReadDeploy? || p.ReadToken? || p.MakeToken?
    requires Follows(s, p, tokens) && Call(s, p, fault).then_.Next?
    requires tokens && p.ReadToken? ==> !fault
    ensures var out := Call(s, p, fault); Follows(Perform(s, out.write), out.then_.pass, tokens)
  {
    hide BuildTemplate, DefaultToken, AccessUrl;
    match p { case ReadDeploy(_, _, _) => case ReadToken(_, _, _, _) => case MakeToken(_, _, _, _) => }
  }

  lemma NextFollows(s: Store, p: Pass, fault: bool, tokens: bool)
    requires Follows(s, p, tokens) && Call(s, p, fault).then_.Next?
    requires tokens && p.ReadToken? ==> !fault
    ensures var out := Call(s, p, fault); Follows(Perform(s, out.write), out.then_.pass, tokens)
  {
    LastHasNoNext(s, p, fault);
    hide Call, Follows, Perform;
    if p.GetChild? || p.MakeChild? {
      ChildFollows(s, p, fault, tokens);
    } else if p.GetDeploy? || p.MakeDeploy? || p.PatchDeploy? {
      DeployFollows(s, p, fault, tokens);
    } else if p.ReadDeploy? || p.ReadToken? || p.MakeToken? {
      ReportFollows(s, p, fault, tokens);
    } else {
      EarlyFollows(s, p, fault, tokens);
    }
  }

  lemma LastHasNoNext(s: Store, p: Pass, fault: bool)
    ensures p.WriteStatus? || p.WriteFailed? ==> !Call(s, p, fault).then_.Next?
  {
  }

  /** At the end of a pass the key is queued, or all is well. */
  lemma LastHeals(s: System, fault: bool, tokens: bool)
    requires s.pass.Some? && Follows(s.st, s.pass.value, tokens)
    requires !Call(s.st, s.pass.value, fault).then_.Next?
    ensures Sound(Settle(s, Call(s.st, s.pass.value, fault)), tokens)
  {
    hide BuildTemplate, AccessUrl, PhaseOf;
    match s.pass.value {
      case Get => case PurgeNotebook(_) => case ReadDeploy(_, _, _) => case WriteFailed(_) =>
      case PauseIdle(_, _, _) => case PauseLifespan(_, _, _) =>
      case WriteStatus(_, _, _, _) =>
      case _ =>
    }
  }

  /** Whatever others change queues the key. */
  lemma OutsideKeepsSound(s: System, a: Action, tokens: bool)
    requires Sound(s, tokens)
    ensures Sound(s.(st := Perform(s.st, OutsideWrite(s.st, a))), tokens)
  {
    hide Healed, Seen;
  }

  lemma TimelessHealing(s: Store, t: Store, nb: Notebook, tokens: bool)
    requires t == s.(now := t.now, dirty := t.dirty, timer := t.timer)
    ensures Healed(t, nb, tokens) == Healed(s, nb, tokens)
  {
  }

  lemma TimelessPass(s: Store, t: Store, p: Pass, tokens: bool)
    requires t == s.(now := t.now)
    ensures Follows(t, p, tokens) == Follows(s, p, tokens)
  {
    hide BuildTemplate, AccessUrl, PhaseOf;
  }

  lemma StepKeepsSound(s: System, fault: bool, tokens: bool)
    requires Sound(s, tokens) && (tokens ==> TokensRead(s, Step(fault)))
    ensures Sound(Do(s, Step(fault)), tokens)
  {
    if s.pass.Some? {
      if Call(s.st, s.pass.value, fault).then_.Next? {
        NextFollows(s.st, s.pass.value, fault, tokens);
      } else {
        LastHeals(s, fault, tokens);
      }
      hide Call, Perform, Follows, Healed;
    }
  }

  lemma DoKeepsSound(s: System, a: Action, tokens: bool)
    requires Sound(s, tokens) && (tokens ==> TokensRead(s, a))
    ensures Sound(Do(s, a), tokens)
  {
    match a {
      case Tick(dt) =>
        var t := s.st.(now := s.st.now + dt);
        if s.pass.Some? { TimelessPass(s.st, t, s.pass.value, tokens); }
        if s.st.notebook.Some? { TimelessHealing(s.st, t, s.st.notebook.value, tokens); }
        hide Follows, Healed, Seen, Call, Perform;
      case Fire => hide Healed, Seen, Call, Perform;
      case Start => hide Healed, Call, Perform;
      case Step(fault) => StepKeepsSound(s, fault, tokens); hide Do;
      case _ => OutsideKeepsSound(s, a, tokens); hide Healed, Seen, Call, Perform, Sound;
    }
  }

  lemma {:induction false} RunKeepsSound(s: System, acts: seq<Action>, tokens: bool)
    requires Sound(s, tokens) && (tokens ==> TokensReadAll(s, acts))
    ensures Sound(Run(s, acts), tokens)
    decreases |acts|
  {
    hide Do, Sound, TokensRead;
    if acts != [] {
      DoKeepsSound(s, acts[0], tokens);
      RunKeepsSound(Do(s, acts[0]), acts[1..], tokens);
    }
  }

  /** In every run: a notebook whose key is at rest is healed. */
  lemma QuiescentMeansHealed(s: System, acts: seq<Action>)
    requires Initial(s)
    ensures var t := Run(s, acts);
            t.pass.None? && !t.st.dirty && t.st.notebook.Some? ==> Healed(t.st, t.st.notebook.value, false)
  {
    hide Run;
    RunKeepsSound(s, acts, false);
  }

  /** And its access URL leads to it, if the token was always read. */
  lemma QuiescentUrlRight(s: System, acts: seq<Action>)
    requires Initial(s) && TokensReadAll(s, acts)
    ensures var t := Run(s, acts);
            t.pass.None? && !t.st.dirty && t.st.notebook.Some? ==> Healed(t.st, t.st.notebook.value, true)
  {
    hide Run;
    RunKeepsSound(s, acts, true);
  }
}
