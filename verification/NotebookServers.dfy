/**
 The API client and the clock that the notebook reconciler drives. Time goes by before each
 call and each reading of the clock; a failing call changes nothing.
 */
module NotebookServers {
  import opened Prelude
  import opened NotebookStore
  import opened NotebookController

  class NotebookServer {
    var st: Store
    var steps: nat
    const script: Script

    constructor (st: Store, script: Script)
      ensures this.st == st && this.steps == 0 && this.script == script
    {
      this.st := st;
      this.steps := 0;
      this.script := script;
    }

    /** Whether the next call fails. */
    ghost predicate Fails() reads this { script.faults(steps) }

    /** The store at the time of the next call. */
    ghost function Ready(): Store reads this { Later(st, script.ticks(steps)) }

    /** Lets time go by and says whether the call that follows fails. */
    method Begin() returns (fails: bool)
      modifies this
      ensures st == old(Ready()) && steps == old(steps) + 1 && fails == old(Fails())
    {
      fails := script.faults(steps);
      st := Later(st, script.ticks(steps));
      steps := steps + 1;
    }

    method Now() returns (now: int)
      modifies this
      ensures st == old(Ready()) && steps == old(steps) + 1 && now == st.now
    {
      var _ := Begin();
      now := st.now;
    }

    method GetNotebook() returns (r: Found<Notebook>)
      modifies this
      ensures st == old(Ready()) && steps == old(steps) + 1
      ensures r == if old(Fails()) then Unavailable
                   else if st.notebook.Some? then Present(st.notebook.value) else Absent
    {
      var fails := Begin();
      r := if fails then Unavailable else if st.notebook.Some? then Present(st.notebook.value) else Absent;
    }

    method RemoveNotebook() returns (ok: bool)
      modifies this
      ensures steps == old(steps) + 1 && ok == (!old(Fails()) && old(Ready()).notebook.Some?)
      ensures st == if ok then Perform(old(Ready()), DropNotebook) else old(Ready())
    {
      var fails := Begin();
      ok := !fails && st.notebook.Some?;
      if ok {
        st := Perform(st, DropNotebook);
      }
    }

    /** A merge patch of spec.replicas, if it differs from the copy; the answer is the stored object. */
    method PatchReplicas(copy: Notebook) returns (r: Option<Notebook>)
      modifies this
      ensures steps == old(steps) + 1 && r == Pause(old(Ready()), copy, old(Fails()))
      ensures st == if r.Some? then Perform(old(Ready()), PutNotebook(r.value)) else old(Ready())
    {
      var fails := Begin();
      r := Pause(st, copy, fails);
      if r.Some? {
        st := Perform(st, PutNotebook(r.value));
      }
    }

    /** Status update, refused if the object changed since it was last read. */
    method UpdateStatus(copy: Notebook, result: Notebook) returns (ok: bool)
      modifies this
      ensures steps == old(steps) + 1 && ok == (!old(Fails()) && Current(old(Ready()), copy))
      ensures st == if ok then Perform(old(Ready()), PutNotebook(result)) else old(Ready())
    {
      var fails := Begin();
      ok := !fails && Current(st, copy);
      if ok {
        st := Perform(st, PutNotebook(result));
      }
    }

    /** A child object; what is found in it is the token of the Secret. */
    method GetChild(child: Child) returns (r: Found<string>)
      modifies this
      ensures st == old(Ready()) && steps == old(steps) + 1
      ensures r == if old(Fails()) then Unavailable else if child in st.children then Present(st.token) else Absent
    {
      var fails := Begin();
      r := if fails then Unavailable else if child in st.children then Present(st.token) else Absent;
    }

    /** Create is refused if the object exists. */
    method CreateChild(child: Child) returns (ok: bool)
      modifies this
      ensures steps == old(steps) + 1 && ok == (!old(Fails()) && child !in old(Ready()).children)
      ensures st == if ok then Perform(old(Ready()), Create(old(Ready()), child)) else old(Ready())
    {
      var fails := Begin();
      ok := !fails && child !in st.children;
      if ok {
        st := Perform(st, Create(st, child));
      }
    }

    method RemoveChild(child: Child) returns (ok: bool)
      modifies this
      ensures steps == old(steps) + 1 && ok == !old(Fails())
      ensures st == if ok then Perform(old(Ready()), DropChild(child)) else old(Ready())
    {
      var fails := Begin();
      ok := !fails;
      if ok {
        st := Perform(st, DropChild(child));
      }
    }

    method GetDeployment() returns (r: Found<Deployment>)
      modifies this
      ensures st == old(Ready()) && steps == old(steps) + 1
      ensures r == if old(Fails()) then Unavailable
                   else if st.deploy.Some? then Present(st.deploy.value) else Absent
    {
      var fails := Begin();
      r := if fails then Unavailable else if st.deploy.Some? then Present(st.deploy.value) else Absent;
    }

    method CreateDeployment(d: Deployment) returns (ok: bool)
      modifies this
      ensures steps == old(steps) + 1 && ok == (!old(Fails()) && old(Ready()).deploy.None?)
      ensures st == if ok then Perform(old(Ready()), PutDeploy(d)) else old(Ready())
    {
      var fails := Begin();
      ok := !fails && st.deploy.None?;
      if ok {
        st := Perform(st, PutDeploy(d));
      }
    }

    /** A merge patch from the copy read to the one wanted. */
    method PatchDeployment(seen: Deployment, want: Deployment) returns (ok: bool)
      modifies this
      ensures steps == old(steps) + 1 && ok == (!old(Fails()) && old(Ready()).deploy.Some?)
      ensures st == if ok then Perform(old(Ready()), PutDeploy(Patched(old(Ready()).deploy.value, seen, want))) else old(Ready())
    {
      var fails := Begin();
      ok := !fails && st.deploy.Some?;
      if ok {
        st := Perform(st, PutDeploy(Patched(st.deploy.value, seen, want)));
      }
    }
  }
}
