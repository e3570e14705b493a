/**
 What the operator may take away. Over any run it deletes the workspace PVC and the notebook
 only in a pass that found the inactivity threshold reached, a pass that purges creates nothing
 afterwards, and nothing the operator does raises the replicas a user asked for.
 */
module NotebookPurge {
  import opened Prelude
  import opened Durations
  import opened NotebookStore
  import opened NotebookController
  import opened NotebookSystem
  import opened NotebookPasses
  import H = NotebookHealing

  predicate Purging(p: Pass) { p.FindPvc? || p.PurgePvc? || p.PurgeNotebook? }

  ghost predicate Justified(p: Pass, now: int)
  {
    && (Purging(p) ==> PurgeDue(p.nb, now))
    && (p.WriteStatus? ==> p.result.spec == p.nb.spec)
  }

  ghost predicate Just(s: System)
  {
    s.pass.Some? ==> Justified(s.pass.value, s.st.now)
  }

  lemma CallJustified(s: Store, p: Pass, fault: bool)
    requires Justified(p, s.now)
    ensures var t := Call(s, p, fault).then_; t.Next? ==> Justified(t.pass, s.now)
  {
    hide Remaining, Since, PurgeLimit, IdleLimit, LifespanLimit, Wanted, Patched;
    match p {
      case Get => case CheckPurge(_, _) => case FindPvc(_) => case PurgePvc(_) => case PurgeNotebook(_) =>
      case CheckIdle(_, _, _) => case PauseIdle(_, _, _) =>
      case CheckLifespan(_, _, _) => case PauseLifespan(_, _, _) =>
      case GetChild(_, _, _, c) => match c { case Pvc => case Secret => case Service => case Ingress => }
      case MakeChild(_, _, _, c) => match c { case Pvc => case Secret => case Service => case Ingress => }
      case GetDeploy(_, _, _) => case MakeDeploy(_, _, _) => case PatchDeploy(_, _, _, _) =>
      case ReadDeploy(_, _, _) => case ReadToken(_, _, _, _) => case MakeToken(_, _, _, _) =>
      case WriteStatus(_, _, _, _) => case WriteFailed(_) =>
    }
  }

  lemma TimeKeepsNow(s: Store, w: Write)
    ensures Perform(s, w).now == s.now
  {
  }

  lemma DoKeepsJust(s: System, a: Action)
    requires Just(s)
    ensures Just(Do(s, a))
  {
    hide Call, Perform, OutsideWrite;
    match a {
      case Tick(dt) =>
        if s.pass.Some? && Purging(s.pass.value) { DueStaysDue(s.pass.value.nb, s.st.now, s.st.now + dt); }
      case Step(fault) =>
        if s.pass.Some? {
          CallJustified(s.st, s.pass.value, fault);
          TimeKeepsNow(s.st, Call(s.st, s.pass.value, fault).write);
        }
      case Fire => case Start =>
      case _ => TimeKeepsNow(s.st, OutsideWrite(s.st, a));
    }
  }

  lemma {:induction false} RunKeepsJust(s: System, acts: seq<Action>)
    requires Just(s)
    ensures Just(Run(s, acts))
    decreases |acts|
  {
    hide Do, Just;
    if acts != [] {
      DoKeepsJust(s, acts[0]);
      RunKeepsJust(Do(s, acts[0]), acts[1..]);
    }
  }

  lemma OnlyPurgeDrops(s: Store, p: Pass, fault: bool)
    ensures var w := Call(s, p, fault).write;
            (w.DropChild? ==> p.PurgePvc? && w.child == Pvc) && (w.DropNotebook? ==> p.PurgeNotebook?) && !w.DropDeploy?
  {
    match p {
      case Get => case CheckPurge(_, _) => case FindPvc(_) => case PurgePvc(_) => case PurgeNotebook(_) =>
      case CheckIdle(_, _, _) => case PauseIdle(_, _, _) =>
      case CheckLifespan(_, _, _) => case PauseLifespan(_, _, _) =>
      case GetChild(_, _, _, _) => case MakeChild(_, _, _, _) =>
      case GetDeploy(_, _, _) => case MakeDeploy(_, _, _) => case PatchDeploy(_, _, _, _) =>
      case ReadDeploy(_, _, _) => case ReadToken(_, _, _, _) => case MakeToken(_, _, _, _) =>
      case WriteStatus(_, _, _, _) => case WriteFailed(_) =>
    }
  }

  /**
   Every deletion by the operator, in any run: the notebook it read had reached its inactivity
   threshold, and is the stored one unless the key has been queued again since.
   */
  lemma DeletesOnlyWhenDue(s: System, acts: seq<Action>, fault: bool)
    requires Initial(s)
    requires var t := Run(s, acts);
             && t.pass.Some?
             && (var w := Call(t.st, t.pass.value, fault).write; w.DropChild? || w.DropNotebook? || w.DropDeploy?)
    ensures var t := Run(s, acts);
            var p := t.pass.value;
            && Purging(p) && PurgeDue(p.nb, t.st.now)
            && (t.st.dirty || t.st.notebook == Some(p.nb))
            && (var w := Call(t.st, p, fault).write; w == DropChild(Pvc) || w == DropNotebook)
  {
    hide Run, Call, PurgeDue;
    RunKeepsJust(s, acts);
    H.RunKeepsSound(s, acts, false);
    var t := Run(s, acts);
    OnlyPurgeDrops(t.st, t.pass.value, fault);
  }

  /** Whatever fails, a purging pass only deletes: PVC and notebook, nothing else, and adds nothing. */
  lemma {:induction false} PurgingOnlyDeletes(s: Store, p: Pass, script: Script, steps: nat)
    requires Purging(p)
    ensures var t := Finish(s, p, script, steps).st;
            && t.children <= s.children && s.children <= t.children + {Pvc}
            && t.deploy == s.deploy && t.token == s.token
            && (t.notebook == s.notebook || t.notebook == None)
    decreases Rank(p)
  {
    var u := Later(s, script.ticks(steps));
    CallAdvances(u, p, script.faults(steps));
    PurgingCall(u, p, script.faults(steps));
    hide Call, Finish, Perform;
    Unfold(s, p, script, steps);
    NothingHappens(u);
    var out := Call(u, p, script.faults(steps));
    if out.then_.Next? {
      PurgingOnlyDeletes(Perform(u, out.write), out.then_.pass, script, steps + 1);
    }
  }

  /**
   A purge, call by call: the PVC goes exactly if it is found and its Delete goes through; whatever
   becomes of it, the notebook goes, and the pass ends well, exactly if its own Delete goes through.
   */
  lemma PurgesExactly(s: Store, nb: Notebook, script: Script, steps: nat)
    requires s.notebook.Some?
    ensures var f := Finish(s, FindPvc(nb), script, steps);
            var found := Pvc in s.children && !script.faults(steps);
            var last := if found then steps + 2 else steps + 1;
            && (Pvc in f.st.children <==> Pvc in s.children && !(found && !script.faults(steps + 1)))
            && (f.st.notebook.None? <==> !script.faults(last))
            && f.verdict == (if script.faults(last) then Err else Done(0))
  {
    hide Finish;
    var u := Later(s, script.ticks(steps));
    Unfold(s, FindPvc(nb), script, steps);
    if Pvc in s.children && !script.faults(steps) {
      var v := Later(u, script.ticks(steps + 1));
      Unfold(u, PurgePvc(nb), script, steps + 1);
      var w := if script.faults(steps + 1) then v else Perform(v, DropChild(Pvc));
      NothingHappens(v);
      Unfold(w, PurgeNotebook(nb), script, steps + 2);
    } else {
      NothingHappens(u);
      Unfold(u, PurgeNotebook(nb), script, steps + 1);
    }
  }

  lemma PurgingCall(s: Store, p: Pass, fault: bool)
    requires Purging(p)
    ensures var out := Call(s, p, fault);
            var t := Perform(s, out.write);
            && (out.then_.Next? ==> Purging(out.then_.pass))
            && t.children <= s.children && s.children <= t.children + {Pvc}
            && t.deploy == s.deploy && t.token == s.token
            && (t.notebook == s.notebook || t.notebook == None)
  {
  }

  /** A step of the operator leaves the spec as it is, or sets replicas to 0. */
  lemma OperatorKeepsSpec(s: System, fault: bool)
    requires Just(s)
    ensures var t := Do(s, Step(fault)).st;
            t.notebook.Some? ==>
              && s.st.notebook.Some?
              && (t.notebook.value.spec == s.st.notebook.value.spec
                  || t.notebook.value.spec == PausedOf(s.st.notebook.value).spec)
  {
    hide Remaining, Since, PurgeDue, Wanted, Patched;
    if s.pass.Some? {
      match s.pass.value {
        case Get => case CheckPurge(_, _) => case FindPvc(_) => case PurgePvc(_) => case PurgeNotebook(_) =>
        case CheckIdle(_, _, _) => case PauseIdle(_, _, _) =>
        case CheckLifespan(_, _, _) => case PauseLifespan(_, _, _) =>
        case GetChild(_, _, _, _) => case MakeChild(_, _, _, _) =>
        case GetDeploy(_, _, _) => case MakeDeploy(_, _, _) => case PatchDeploy(_, _, _, _) =>
        case ReadDeploy(_, _, _) => case ReadToken(_, _, _, _) => case MakeToken(_, _, _, _) =>
        case WriteStatus(_, _, _, _) =>
        case WriteFailed(_) =>
      }
    }
  }

  /** No users in this run: only the operator and Kubernetes act. */
  predicate NobodyEdits(acts: seq<Action>)
  {
    forall j :: 0 <= j < |acts| ==> !acts[j].EditNotebook? && !acts[j].CreateNotebook?
  }

  lemma DoKeepsSpec(s: System, a: Action)
    requires Just(s) && !a.EditNotebook? && !a.CreateNotebook?
    ensures var t := Do(s, a).st;
            t.notebook.Some? ==>
              && s.st.notebook.Some?
              && (t.notebook.value.spec == s.st.notebook.value.spec
                  || t.notebook.value.spec == PausedOf(s.st.notebook.value).spec)
  {
    match a {
      case Step(fault) => OperatorKeepsSpec(s, fault); hide Do;
      case _ =>
    }
  }

  /** Left to operator and Kubernetes, a spec stays as it is or becomes its paused form, for good. */
  lemma {:induction false} NeverResumes(s: System, acts: seq<Action>)
    requires Just(s) && NobodyEdits(acts)
    ensures var t := Run(s, acts).st;
            t.notebook.Some? ==>
              && s.st.notebook.Some?
              && (t.notebook.value.spec == s.st.notebook.value.spec
                  || t.notebook.value.spec == PausedOf(s.st.notebook.value).spec)
    decreases |acts|
  {
    hide Do, Just;
    if acts != [] {
      DoKeepsSpec(s, acts[0]);
      DoKeepsJust(s, acts[0]);
      NeverResumes(Do(s, acts[0]), acts[1..]);
    }
  }
}
