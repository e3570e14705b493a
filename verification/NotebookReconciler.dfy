/**
 The NotebookLab reconciler as it is written: sequenced calls, a requeue delay that is threaded
 through the policies, a copy of the object that is changed in place. Each method does what
 the call machine of NotebookController does from the same point on.
 */
module NotebookReconciler {
  import opened Prelude
  import opened Durations
  import opened NotebookStore
  import opened NotebookController
  import opened NotebookServers

  /** The object in memory: `read` is what the server returned last. */
  class NotebookCopy {
    var read: Notebook
    var nb: Notebook

    constructor (nb: Notebook)
      ensures this.read == nb && this.nb == nb
    {
      this.read := nb;
      this.nb := nb;
    }
  }

  method Reconcile(api: NotebookServer) returns (verdict: Then)
    modifies api
    ensures Finished(api.st, verdict, api.steps) == Finish(old(api.st), Get, api.script, old(api.steps))
  {
    hide Finish, Perform;
    Unfold(api.st, Get, api.script, api.steps);
    var r := api.GetNotebook();
    match r {
      case Absent => return Done(0);
      case Unavailable => return Err;
      case Present(nb) =>
        ghost var began := api.st.now;
        var copy := new NotebookCopy(nb);
        var end, wait := ReconcileLifecycle(api, copy, began);
        match end {
          case Failing => return Err;
          case Purged => return Done(0);
          case Live =>
            verdict := ReconcileChildren(api, copy, wait, began);
        }
    }
  }

  datatype LifecycleEnd = Purged | Failing | Live

  /** The three policies in turn; a pause is patched at once, whatever is not due shortens the delay. */
  method ReconcileLifecycle(api: NotebookServer, copy: NotebookCopy, ghost began: int) returns (end: LifecycleEnd, wait: int)
    requires copy.nb == copy.read
    modifies api, copy
    ensures copy.nb == copy.read
    ensures Finish(old(api.st), CheckPurge(old(copy.nb), began), api.script, old(api.steps)) ==
            match end
            case Failing => Finished(api.st, Err, api.steps)
            case Purged => Finished(api.st, Done(0), api.steps)
            case Live => Finish(api.st, GetChild(copy.nb, wait, began, FirstChild(copy.nb)), api.script, api.steps)
  {
    hide Finish, Perform, Pause, Later, Remaining, Since, PurgeLimit, IdleLimit, LifespanLimit;
    wait := 0;
    AtPurge(api.st, copy.nb, began, api.script, api.steps);
    if PurgeArmed(copy.nb) {
      var now := api.Now();
      if Since(now, ActiveAt(copy.nb)) >= PurgeLimit(copy.nb) {
        var ok := Purge(api, copy.nb);
        return if ok then Purged else Failing, 0;
      }
      wait := Remaining(now, ActiveAt(copy.nb), PurgeLimit(copy.nb));
    }
    AtIdle(api.st, copy.nb, wait, began, api.script, api.steps);
    if IdleArmed(copy.nb) {
      var now := api.Now();
      if Since(now, ActiveAt(copy.nb)) >= IdleLimit(copy.nb) {
        AtPauseIdle(api.st, copy.nb, wait, began, api.script, api.steps);
        var r := api.PatchReplicas(copy.nb);
        if r.None? {
          return Failing, 0;
        }
        copy.read, copy.nb := r.value, r.value;
      } else {
        var remaining := Remaining(now, ActiveAt(copy.nb), IdleLimit(copy.nb));
        if wait == 0 || remaining < wait {
          wait := remaining;
        }
      }
    }
    AtLifespan(api.st, copy.nb, wait, began, api.script, api.steps);
    if LifespanArmed(copy.nb) {
      var now := api.Now();
      if Since(now, copy.nb.created) >= LifespanLimit(copy.nb) {
        AtPauseLifespan(api.st, copy.nb, wait, began, api.script, api.steps);
        var r := api.PatchReplicas(copy.nb);
        if r.None? {
          return Failing, 0;
        }
        copy.read, copy.nb := r.value, r.value;
      } else {
        var remaining := Remaining(now, copy.nb.created, LifespanLimit(copy.nb));
        if wait == 0 || remaining < wait {
          wait := remaining;
        }
      }
    }
    end := Live;
  }

  // Each policy of the machine, with its definition put aside.

  lemma AtPurge(s: Store, nb: Notebook, began: int, script: Script, steps: nat)
    ensures var u := Later(s, script.ticks(steps));
            Finish(s, CheckPurge(nb, began), script, steps) ==
            if !PurgeArmed(nb) then Finish(s, CheckIdle(nb, 0, began), script, steps)
            else if Since(u.now, ActiveAt(nb)) >= PurgeLimit(nb) then Finish(u, FindPvc(nb), script, steps + 1)
            else Finish(u, CheckIdle(nb, Remaining(u.now, ActiveAt(nb), PurgeLimit(nb)), began), script, steps + 1)
  {
    hide Finish, Remaining, Since, PurgeLimit;
    Unfold(s, CheckPurge(nb, began), script, steps);
  }

  lemma AtIdle(s: Store, nb: Notebook, wait: int, began: int, script: Script, steps: nat)
    ensures var u := Later(s, script.ticks(steps));
            Finish(s, CheckIdle(nb, wait, began), script, steps) ==
            if !IdleArmed(nb) then Finish(s, CheckLifespan(nb, wait, began), script, steps)
            else if Since(u.now, ActiveAt(nb)) >= IdleLimit(nb) then Finish(u, PauseIdle(nb, wait, began), script, steps + 1)
            else Finish(u, CheckLifespan(nb, Sooner(wait, Remaining(u.now, ActiveAt(nb), IdleLimit(nb))), began),
                        script, steps + 1)
  {
    hide Finish, Remaining, Since, IdleLimit;
    Unfold(s, CheckIdle(nb, wait, began), script, steps);
  }

  lemma AtPauseIdle(s: Store, nb: Notebook, wait: int, began: int, script: Script, steps: nat)
    ensures var u := Later(s, script.ticks(steps));
            var r := Pause(u, nb, script.faults(steps));
            Finish(s, PauseIdle(nb, wait, began), script, steps) ==
            if r.None? then Finished(u, Err, steps + 1)
            else Finish(Perform(u, PutNotebook(r.value)), CheckLifespan(r.value, wait, began), script, steps + 1)
  {
    hide Finish, Pause;
    Unfold(s, PauseIdle(nb, wait, began), script, steps);
  }

  lemma AtLifespan(s: Store, nb: Notebook, wait: int, began: int, script: Script, steps: nat)
    ensures var u := Later(s, script.ticks(steps));
            Finish(s, CheckLifespan(nb, wait, began), script, steps) ==
            if !LifespanArmed(nb) then Finish(s, GetChild(nb, wait, began, FirstChild(nb)), script, steps)
            else if Since(u.now, nb.created) >= LifespanLimit(nb) then
              Finish(u, PauseLifespan(nb, wait, began), script, steps + 1)
            else Finish(u, GetChild(nb, Sooner(wait, Remaining(u.now, nb.created, LifespanLimit(nb))), began, FirstChild(nb)),
                        script, steps + 1)
  {
    hide Finish, Remaining, Since, LifespanLimit, FirstChild;
    Unfold(s, CheckLifespan(nb, wait, began), script, steps);
  }

  lemma AtPauseLifespan(s: Store, nb: Notebook, wait: int, began: int, script: Script, steps: nat)
    ensures var u := Later(s, script.ticks(steps));
            var r := Pause(u, nb, script.faults(steps));
            Finish(s, PauseLifespan(nb, wait, began), script, steps) ==
            if r.None? then Finished(u, Err, steps + 1)
            else Finish(Perform(u, PutNotebook(r.value)), GetChild(r.value, wait, began, FirstChild(r.value)),
                        script, steps + 1)
  {
    hide Finish, Pause, FirstChild;
    Unfold(s, PauseLifespan(nb, wait, began), script, steps);
  }

  /** Deletes the PVC if it is found, then the notebook; only the latter counts. */
  method Purge(api: NotebookServer, nb: Notebook) returns (ok: bool)
    modifies api
    ensures Finished(api.st, if ok then Done(0) else Err, api.steps) ==
            Finish(old(api.st), FindPvc(nb), api.script, old(api.steps))
  {
    hide Finish, Perform;
    Unfold(api.st, FindPvc(nb), api.script, api.steps);
    var pvc := api.GetChild(Pvc);
    if pvc.Present? {
      Unfold(api.st, PurgePvc(nb), api.script, api.steps);
      var _ := api.RemoveChild(Pvc);
    }
    Unfold(api.st, PurgeNotebook(nb), api.script, api.steps);
    ok := api.RemoveNotebook();
  }

  /** Children in turn; an error at any of them is recorded in the status. */
  method ReconcileChildren(api: NotebookServer, copy: NotebookCopy, wait: int, ghost began: int) returns (verdict: Then)
    requires copy.nb == copy.read
    modifies api, copy
    ensures Finished(api.st, verdict, api.steps) ==
            Finish(old(api.st), GetChild(old(copy.nb), wait, began, FirstChild(old(copy.nb))), api.script, old(api.steps))
  {
    hide Finish, Perform, Create;
    if copy.nb.spec.pod.workspace.Some? {
      var ok := CreateIfMissing(api, copy.nb, wait, began, Pvc);
      if !ok {
        UpdateStatusError(api, copy);
        return Err;
      }
    }
    var ok := ReconcileJupyterDeployment(api, copy.nb, wait, began);
    if !ok {
      UpdateStatusError(api, copy);
      return Err;
    }
    ok := ReconcileNetworking(api, copy.nb, wait, began);
    if !ok {
      UpdateStatusError(api, copy);
      return Err;
    }
    ok := UpdateNotebookStatus(api, copy, wait, began);
    return if ok then Done(wait) else Err;
  }

  /** A child is created if it is not found. */
  method CreateIfMissing(api: NotebookServer, nb: Notebook, ghost wait: int, ghost began: int, child: Child)
    returns (ok: bool)
    modifies api
    ensures Finish(old(api.st), GetChild(nb, wait, began, child), api.script, old(api.steps)) ==
            Finish(api.st, if ok then AfterChild(nb, wait, began, child) else WriteFailed(nb), api.script, api.steps)
  {
    hide Finish, Perform, AfterChild;
    Unfold(api.st, GetChild(nb, wait, began, child), api.script, api.steps);
    var found := api.GetChild(child);
    match found {
      case Present(_) => return true;
      case Unavailable => return false;
      case Absent =>
        Unfold(api.st, MakeChild(nb, wait, began, child), api.script, api.steps);
        ok := api.CreateChild(child);
    }
  }

  /** The Secret first, then the Deployment: created, or patched to what the spec asks for. */
  method ReconcileJupyterDeployment(api: NotebookServer, nb: Notebook, ghost wait: int, ghost began: int)
    returns (ok: bool)
    modifies api
    ensures Finish(old(api.st), GetChild(nb, wait, began, Secret), api.script, old(api.steps)) ==
            Finish(api.st, if ok then GetChild(nb, wait, began, Service) else WriteFailed(nb), api.script, api.steps)
  {
    hide Finish, Perform, Create, Wanted, Patched;
    ok := CreateIfMissing(api, nb, wait, began, Secret);
    if !ok {
      return;
    }
    Unfold(api.st, GetDeploy(nb, wait, began), api.script, api.steps);
    var want := Wanted(api.st.name, nb);
    var existing := api.GetDeployment();
    match existing {
      case Unavailable => return false;
      case Absent =>
        Unfold(api.st, MakeDeploy(nb, wait, began), api.script, api.steps);
        ok := api.CreateDeployment(want);
      case Present(seen) =>
        Unfold(api.st, PatchDeploy(nb, wait, began, seen), api.script, api.steps);
        ok := api.PatchDeployment(seen, want);
    }
  }

  method ReconcileNetworking(api: NotebookServer, nb: Notebook, ghost wait: int, ghost began: int) returns (ok: bool)
    modifies api
    ensures Finish(old(api.st), GetChild(nb, wait, began, Service), api.script, old(api.steps)) ==
            Finish(api.st, if ok then ReadDeploy(nb, wait, began) else WriteFailed(nb), api.script, api.steps)
  {
    hide Finish, Perform, Create;
    ok := CreateIfMissing(api, nb, wait, began, Service);
    if ok {
      ok := CreateIfMissing(api, nb, wait, began, Ingress);
    }
  }

  /** The token of the Secret, which is created if it is missing; any error is left to the caller. */
  method ReconcileNotebookSecret(api: NotebookServer, ghost nb: Notebook, ghost wait: int, ghost began: int, ghost phase: Phase)
    returns (token: Option<string>)
    modifies api
    ensures api.st.name == old(api.st.name)
    ensures var used := if token.Some? then token.value else DefaultToken(api.st.name);
            Finish(old(api.st), ReadToken(nb, wait, began, phase), api.script, old(api.steps)) ==
            Finish(api.st, WriteStatus(nb, wait, began, Reported(api.st.name, nb, phase, used)), api.script, api.steps)
  {
    hide Finish, Reported, DefaultToken;
    Unfold(api.st, ReadToken(nb, wait, began, phase), api.script, api.steps);
    var found := api.GetChild(Secret);
    match found {
      case Present(token) => return Some(token);
      case Unavailable => return None;
      case Absent =>
        Unfold(api.st, MakeToken(nb, wait, began, phase), api.script, api.steps);
        var ok := api.CreateChild(Secret);
        return if ok then Some(DefaultToken(api.st.name)) else None;
    }
  }

  lemma AtReadDeploy(s: Store, nb: Notebook, wait: int, began: int, script: Script, steps: nat)
    ensures var u := Later(s, script.ticks(steps));
            Finish(s, ReadDeploy(nb, wait, began), script, steps) ==
            if script.faults(steps) then Finished(u, Err, steps + 1)
            else if u.deploy.None? then
              Finish(u, WriteStatus(nb, wait, began, WithPhase(nb, Provisioning)), script, steps + 1)
            else Finish(u, ReadToken(nb, wait, began, PhaseOf(nb.spec, u.deploy.value)), script, steps + 1)
  {
    hide Finish, PhaseOf, WithPhase;
    Unfold(s, ReadDeploy(nb, wait, began), script, steps);
  }

  lemma AtWriteStatus(s: Store, nb: Notebook, wait: int, began: int, result: Notebook, script: Script, steps: nat)
    ensures var u := Later(s, script.ticks(steps));
            Finish(s, WriteStatus(nb, wait, began, result), script, steps) ==
            if script.faults(steps) || !Current(u, nb) then Finished(u, Err, steps + 1)
            else Finished(Perform(u, PutNotebook(result)), Done(wait), steps + 1)
  {
    hide Finish;
    Unfold(s, WriteStatus(nb, wait, began, result), script, steps);
  }

  method UpdateNotebookStatus(api: NotebookServer, copy: NotebookCopy, ghost wait: int, ghost began: int) returns (ok: bool)
    requires copy.nb == copy.read
    modifies api, copy
    ensures Finished(api.st, if ok then Done(wait) else Err, api.steps) ==
            Finish(old(api.st), ReadDeploy(old(copy.nb), wait, began), api.script, old(api.steps))
  {
    hide Finish, Perform, AccessUrl, DefaultToken, Later;
    ghost var nb := copy.nb;
    AtReadDeploy(api.st, nb, wait, began, api.script, api.steps);
    var found := api.GetDeployment();
    match found {
      case Unavailable => return false;
      case Absent =>
        copy.nb := copy.nb.(status := copy.nb.status.(phase := Provisioning));
        AtWriteStatus(api.st, nb, wait, began, copy.nb, api.script, api.steps);
        ok := api.UpdateStatus(copy.read, copy.nb);
      case Present(deploy) =>
        var phase;
        if Replicas(copy.nb.spec) == 0 {
          phase := if deploy.running == 0 then Paused else Pausing;
        } else {
          phase := if deploy.ready > 0 then Running else Provisioning;
        }
        copy.nb := copy.nb.(status := copy.nb.status.(phase := phase));
        var read := ReconcileNotebookSecret(api, nb, wait, began, phase);
        var token := if read.Some? then read.value else DefaultToken(api.st.name);
        copy.nb := copy.nb.(status := copy.nb.status.(
          pvcName := api.st.name + "-workspace", url := AccessUrl(api.st.name, token)));
        AtWriteStatus(api.st, nb, wait, began, copy.nb, api.script, api.steps);
        ok := api.UpdateStatus(copy.read, copy.nb);
    }
  }

  /** The failed phase is written if possible; the pass ends in an error either way. */
  method UpdateStatusError(api: NotebookServer, copy: NotebookCopy)
    requires copy.nb == copy.read
    modifies api, copy
    ensures Finished(api.st, Err, api.steps) ==
            Finish(old(api.st), WriteFailed(old(copy.nb)), api.script, old(api.steps))
  {
    hide Finish;
    Unfold(api.st, WriteFailed(copy.nb), api.script, api.steps);
    copy.nb := copy.nb.(status := copy.nb.status.(phase := Failed));
    var _ := api.UpdateStatus(copy.read, copy.nb);
  }
}
