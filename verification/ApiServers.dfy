/**
 The API client the reconcilers drive: a store that every call reads or writes in place, and
 a script that says which calls fail. A failing call changes nothing.
 */
module ApiServers {
  import opened Prelude
  import opened LabStore

  class ApiServer {
    var st: Store
    var calls: nat
    const faults: nat -> bool

    constructor (st: Store, faults: nat -> bool)
      ensures this.st == st && this.calls == 0 && this.faults == faults
    {
      this.st := st;
      this.calls := 0;
      this.faults := faults;
    }

    /** Whether the next call fails. */
    ghost predicate Fails() reads this { faults(calls) }

    method GetLab(k: Key) returns (r: Found<ClusterLab>)
      modifies this
      ensures st == old(st) && calls == old(calls) + 1
      ensures r == if old(Fails()) then Unavailable else if k in st.labs then Present(st.labs[k]) else Absent
    {
      r := if faults(calls) then Unavailable else if k in st.labs then Present(st.labs[k]) else Absent;
      calls := calls + 1;
    }

    /** Update of an object or of its status, refused if the object changed since it was read. */
    method SaveLab(k: Key, read: ClusterLab, lab: ClusterLab) returns (ok: bool)
      modifies this
      ensures calls == old(calls) + 1
      ensures ok == (!old(Fails()) && CurrentLab(old(st), k, read))
      ensures st == if ok then Perform(old(st), UpdateLab(k, lab)) else old(st)
    {
      ok := !faults(calls) && CurrentLab(st, k, read);
      calls := calls + 1;
      if ok {
        st := Perform(st, UpdateLab(k, lab));
      }
    }

    method RemoveLab(k: Key) returns (ok: bool)
      modifies this
      ensures calls == old(calls) + 1 && ok == !old(Fails())
      ensures st == if ok then Perform(old(st), DeleteLab(old(st), k)) else old(st)
    {
      ok := !faults(calls);
      calls := calls + 1;
      if ok {
        st := Perform(st, DeleteLab(st, k));
      }
    }

    method RemoveNamespace(n: string) returns (ok: bool)
      modifies this
      ensures calls == old(calls) + 1 && ok == !old(Fails())
      ensures st == if ok then Perform(old(st), DeleteSpace(old(st), n)) else old(st)
    {
      ok := !faults(calls);
      calls := calls + 1;
      if ok {
        st := Perform(st, DeleteSpace(st, n));
      }
    }

    method GetNamespace(n: string) returns (r: Found<Namespace>)
      modifies this
      ensures st == old(st) && calls == old(calls) + 1
      ensures r == if old(Fails()) then Unavailable else if n in st.spaces then Present(st.spaces[n]) else Absent
    {
      r := if faults(calls) then Unavailable else if n in st.spaces then Present(st.spaces[n]) else Absent;
      calls := calls + 1;
    }

    method CreateOrUpdateNamespace(k: Key, n: string, labels: map<string, string>) returns (ok: bool)
      modifies this
      ensures calls == old(calls) + 1 && ok == !old(Fails())
      ensures st == if ok then Perform(old(st), ApplySpace(old(st), k, n, labels)) else old(st)
    {
      ok := !faults(calls);
      calls := calls + 1;
      if ok {
        st := Perform(st, ApplySpace(st, k, n, labels));
      }
    }

    method CreateOrUpdateQuota(n: string, q: QuotaSpec) returns (ok: bool)
      modifies this
      ensures calls == old(calls) + 1
      ensures ok == (!old(Fails()) && AcceptsHard(old(st), n))
      ensures st == if ok then Perform(old(st), ApplyHard(old(st), n, q)) else old(st)
    {
      ok := !faults(calls) && AcceptsHard(st, n);
      calls := calls + 1;
      if ok {
        st := Perform(st, ApplyHard(st, n, q));
      }
    }

    method CreateOrUpdatePolicy(n: string, network: string) returns (ok: bool)
      modifies this
      ensures calls == old(calls) + 1
      ensures ok == (!old(Fails()) && AcceptsPolicy(old(st), n))
      ensures st == if ok then Perform(old(st), ApplyPolicy(old(st), n, network)) else old(st)
    {
      ok := !faults(calls) && AcceptsPolicy(st, n);
      calls := calls + 1;
      if ok {
        st := Perform(st, ApplyPolicy(st, n, network));
      }
    }

    /** The InstanceLabs of one origin namespace, each listed once; None when the call fails. */
    method ListInstances(origin: string) returns (items: Option<seq<Key>>)
      modifies this
      ensures st == old(st) && calls == old(calls) + 1
      ensures items.None? <==> old(Fails())
      ensures items.Some? ==> Lists(items.value, set i | i in st.insts && i.origin == origin)
    {
      if faults(calls) {
        items := None;
      } else {
        var left := set i | i in st.insts && i.origin == origin;
        var listed: seq<Key> := [];
        while left != {}
          invariant left !! (set i | i in listed)
          invariant left + (set i | i in listed) == set i | i in st.insts && i.origin == origin
          invariant forall a, b :: 0 <= a < b < |listed| ==> listed[a] != listed[b]
          invariant st == old(st) && calls == old(calls)
          decreases left
        {
          var i :| i in left;
          left := left - {i};
          listed := listed + [i];
        }
        items := Some(listed);
      }
      calls := calls + 1;
    }

    method GetInst(i: Key) returns (r: Found<InstanceLab>)
      modifies this
      ensures st == old(st) && calls == old(calls) + 1
      ensures r == if old(Fails()) then Unavailable else if i in st.insts then Present(st.insts[i]) else Absent
    {
      r := if faults(calls) then Unavailable else if i in st.insts then Present(st.insts[i]) else Absent;
      calls := calls + 1;
    }

    method SaveInst(i: Key, read: InstanceLab, inst: InstanceLab) returns (ok: bool)
      modifies this
      ensures calls == old(calls) + 1
      ensures ok == (!old(Fails()) && CurrentInst(old(st), i, read))
      ensures st == if ok then Perform(old(st), UpdateInst(i, inst)) else old(st)
    {
      ok := !faults(calls) && CurrentInst(st, i, read);
      calls := calls + 1;
      if ok {
        st := Perform(st, UpdateInst(i, inst));
      }
    }

    method CreateOrUpdateWorkload(n: string, o: ObjectKey, i: Key, k: Key) returns (ok: bool, phase: PodPhase)
      modifies this
      ensures calls == old(calls) + 1
      ensures ok == (!old(Fails()) && AcceptsWorkload(old(st), n, o))
      ensures st == if ok then Perform(old(st), ApplyWorkload(old(st), n, o, i, k)) else old(st)
      ensures phase == PhaseAt(old(st), n, o)
    {
      ok := !faults(calls) && AcceptsWorkload(st, n, o);
      phase := PhaseAt(st, n, o);
      calls := calls + 1;
      if ok {
        st := Perform(st, ApplyWorkload(st, n, o, i, k));
      }
    }

    method RemoveAllOf(n: string, kind: Kind, instance: string)
      modifies this
      ensures calls == old(calls) + 1
      ensures st == if old(Fails()) then old(st) else Perform(old(st), DeleteAllOf(old(st), n, kind, instance))
    {
      if !faults(calls) {
        st := Perform(st, DeleteAllOf(st, n, kind, instance));
      }
      calls := calls + 1;
    }
  }

  /** `items` enumerates `all` without repetition. */
  ghost predicate Lists(items: seq<Key>, all: set<Key>)
  {
    && (set i | i in items) == all
    && (forall a, b :: 0 <= a < b < |items| ==> items[a] != items[b])
  }
}
