/**
 The ClusterLab reconciler as it is written: it changes its copy of the object in place and
 makes API calls in sequence. Each method does what the call machine of
 ClusterLabController does from the same point on, with the same calls failing.
 */
module ClusterLabReconciler {
  import opened Prelude
  import opened Conditions
  import opened LabStore
  import opened ApiServers
  import C = ClusterLabController

  /** The object in memory; `read` is how it was read. */
  class LabCopy {
    const read: ClusterLab
    var lab: ClusterLab

    constructor (lab: ClusterLab)
      ensures this.read == lab && this.lab == lab
    {
      this.read := lab;
      this.lab := lab;
    }
  }

  /** One call of the machine. */
  lemma Unfold(s: Store, k: Key, p: C.Pass, faults: nat -> bool, calls: nat)
    ensures var out := C.Call(s, k, p, faults(calls));
            var st := Perform(s, out.write);
            var made := if C.Silent(p) then calls else calls + 1;
            C.Finish(s, k, p, faults, calls) ==
            if out.then_.Next? then C.Finish(st, k, out.then_.pass, faults, made)
            else C.Finished(st, out.then_, made)
  {
    hide C.Call, Perform;
  }

  // One call of the machine in each provisioning state, with its definition put aside.

  lemma AtExpired(s: Store, k: Key, lab: ClusterLab, faults: nat -> bool, calls: nat)
    ensures C.Finish(s, k, C.DeleteExpired(lab), faults, calls) ==
            if faults(calls) then C.Finished(s, C.Err, calls + 1)
            else C.Finished(Perform(s, DeleteLab(s, k)), C.Done(0), calls + 1)
  {
    hide C.Finish;
    Unfold(s, k, C.DeleteExpired(lab), faults, calls);
  }

  lemma AtClock(s: Store, k: Key, lab: ClusterLab, mem: ClusterStatus, faults: nat -> bool, calls: nat)
    requires mem.expiresAt.Some?
    ensures C.Finish(s, k, C.ReadClock(lab, mem), faults, calls) ==
            C.Finish(s, k, C.ApplyNamespace(lab, mem, mem.expiresAt.value - s.now), faults, calls)
  {
    hide C.Finish;
    Unfold(s, k, C.ReadClock(lab, mem), faults, calls);
  }

  lemma AtNamespace(s: Store, k: Key, lab: ClusterLab, mem: ClusterStatus, wait: int, faults: nat -> bool, calls: nat)
    ensures C.Finish(s, k, C.ApplyNamespace(lab, mem, wait), faults, calls) ==
            if faults(calls) then FailedFrom(s, k, lab, mem, "NamespaceError", faults, calls + 1)
            else C.Finish(Perform(s, ApplySpace(s, k, s.Target(k.name), lab.labels)), k,
                          C.ApplyQuota(lab, mem, wait), faults, calls + 1)
  {
    hide C.Finish;
    Unfold(s, k, C.ApplyNamespace(lab, mem, wait), faults, calls);
  }

  lemma AtQuota(s: Store, k: Key, lab: ClusterLab, mem: ClusterStatus, wait: int, faults: nat -> bool, calls: nat)
    ensures var n := s.Target(k.name);
            C.Finish(s, k, C.ApplyQuota(lab, mem, wait), faults, calls) ==
            if faults(calls) || !AcceptsHard(s, n) then FailedFrom(s, k, lab, mem, "QuotaError", faults, calls + 1)
            else C.Finish(Perform(s, ApplyHard(s, n, lab.spec.quota)), k,
                          C.ApplyNetwork(lab, mem, wait), faults, calls + 1)
  {
    hide C.Finish;
    Unfold(s, k, C.ApplyQuota(lab, mem, wait), faults, calls);
  }

  lemma AtNetwork(s: Store, k: Key, lab: ClusterLab, mem: ClusterStatus, wait: int, faults: nat -> bool, calls: nat)
    ensures var n := s.Target(k.name);
            C.Finish(s, k, C.ApplyNetwork(lab, mem, wait), faults, calls) ==
            if faults(calls) || !AcceptsPolicy(s, n) then
              FailedFrom(s, k, lab, mem, "NetworkPolicyError", faults, calls + 1)
            else C.Finish(Perform(s, ApplyPolicy(s, n, lab.spec.network)), k,
                          C.ListInstances(lab, mem, wait), faults, calls + 1)
  {
    hide C.Finish;
    Unfold(s, k, C.ApplyNetwork(lab, mem, wait), faults, calls);
  }

  lemma AtList(s: Store, k: Key, lab: ClusterLab, mem: ClusterStatus, wait: int, faults: nat -> bool, calls: nat)
    ensures C.Finish(s, k, C.ListInstances(lab, mem, wait), faults, calls) ==
            C.Finish(s, k, C.WriteStatus(lab, C.RunningStatus(C.Counted(s, k, mem, faults(calls)), s.Target(k.name),
                                                              lab.spec.network, s.now), wait), faults, calls + 1)
  {
    hide C.Finish;
    Unfold(s, k, C.ListInstances(lab, mem, wait), faults, calls);
  }

  lemma AtStatus(s: Store, k: Key, lab: ClusterLab, mem: ClusterStatus, wait: int, faults: nat -> bool, calls: nat)
    ensures C.Finish(s, k, C.WriteStatus(lab, mem, wait), faults, calls) ==
            if faults(calls) || !CurrentLab(s, k, lab) then C.Finished(s, C.Err, calls + 1)
            else C.Finished(Perform(s, UpdateLab(k, lab.(status := mem))), C.Done(if wait > 0 then wait else 0), calls + 1)
  {
    hide C.Finish;
    Unfold(s, k, C.WriteStatus(lab, mem, wait), faults, calls);
  }

  lemma PerformKeepsNames(s: Store, w: Write)
    ensures Perform(s, w).names == s.names && Perform(s, w).now == s.now
  {
  }

  /** The rest of a pass once a provisioning call has failed. */
  function FailedFrom(s: Store, k: Key, lab: ClusterLab, mem: ClusterStatus, reason: string,
                      faults: nat -> bool, calls: nat): C.Finished
  {
    C.Finish(s, k, C.WriteFailed(lab, C.FailedStatus(mem, reason, s.now)), faults, calls)
  }

  method Reconcile(api: ApiServer, k: Key) returns (verdict: C.Then)
    modifies api
    ensures C.Finished(api.st, verdict, api.calls) == C.Finish(old(api.st), k, C.Get, api.faults, old(api.calls))
  {
    Unfold(api.st, k, C.Get, api.faults, api.calls);
    var r := api.GetLab(k);
    match r {
      case Absent => return C.Done(0);
      case Unavailable => return C.Err;
      case Present(lab) =>
        var copy := new LabCopy(lab);
        if !lab.deleting && !lab.finalizer {
          Unfold(api.st, k, C.AddFinalizer(lab), api.faults, api.calls);
          copy.lab := copy.lab.(finalizer := true);
          var ok := api.SaveLab(k, copy.read, copy.lab);
          return if ok then C.Done(0) else C.Err;
        }
        if lab.deleting {
          verdict := ReconcileFinalizer(api, k, copy);
        } else {
          verdict := ReconcileLive(api, k, copy);
        }
    }
  }

  method ReconcileFinalizer(api: ApiServer, k: Key, copy: LabCopy) returns (verdict: C.Then)
    requires copy.lab == copy.read && copy.read.deleting
    modifies api, copy
    ensures C.Finished(api.st, verdict, api.calls) ==
            if copy.read.finalizer then
              C.Finish(old(api.st), k, C.DeleteTarget(copy.read), api.faults, old(api.calls))
            else C.Finished(old(api.st), C.Done(0), old(api.calls))
  {
    if !copy.lab.finalizer {
      return C.Done(0);
    }
    var target := if copy.lab.status.target == "" then api.st.Target(k.name) else copy.lab.status.target;
    Unfold(api.st, k, C.DeleteTarget(copy.read), api.faults, api.calls);
    var ok := api.RemoveNamespace(target);
    if !ok {
      return C.Err;
    }
    Unfold(api.st, k, C.CheckTarget(copy.read), api.faults, api.calls);
    var found := api.GetNamespace(target);
    if !found.Absent? {
      return C.Done(C.THREE_SECONDS);
    }
    Unfold(api.st, k, C.RemoveFinalizer(copy.read), api.faults, api.calls);
    copy.lab := copy.lab.(finalizer := false);
    ok := api.SaveLab(k, copy.read, copy.lab);
    return if ok then C.Done(0) else C.Err;
  }

  datatype TtlResult = Unparsable | Expired | Alive(wait: int)

  /** Sets the expiry in memory and reads the clock twice. */
  method ReconcileTtl(api: ApiServer, copy: LabCopy) returns (r: TtlResult)
    modifies copy
    ensures match copy.read.spec.ttl
            case NoTtl => r == Alive(0)
            case BadTtl => r == Unparsable
            case Lasts(d) =>
              if api.st.now >= copy.read.created + d then r == Expired
              else r == Alive(copy.read.created + d - api.st.now)
    ensures copy.lab == match copy.read.spec.ttl
                        case NoTtl => old(copy.lab).(status := old(copy.lab).status.(expiresAt := None))
                        case BadTtl => old(copy.lab)
                        case Lasts(d) => old(copy.lab).(status := old(copy.lab).status.(expiresAt := Some(copy.read.created + d)))
  {
    match copy.read.spec.ttl {
      case NoTtl =>
        copy.lab := copy.lab.(status := copy.lab.status.(expiresAt := None));
        return Alive(0);
      case BadTtl => return Unparsable;
      case Lasts(d) =>
        var expires := copy.read.created + d;
        copy.lab := copy.lab.(status := copy.lab.status.(expiresAt := Some(expires)));
        if api.st.now >= expires {
          return Expired;
        }
        return Alive(expires - api.st.now);
    }
  }

  method ReconcileLive(api: ApiServer, k: Key, copy: LabCopy) returns (verdict: C.Then)
    requires copy.lab == copy.read && !copy.read.deleting && copy.read.finalizer
    modifies api, copy
    ensures var t := C.Dispatch(old(api.st), k, copy.read);
            C.Finished(api.st, verdict, api.calls) ==
            if t.Next? then C.Finish(old(api.st), k, t.pass, api.faults, old(api.calls))
            else C.Finished(old(api.st), t, old(api.calls))
  {
    hide C.Finish, Perform;
    var n := api.st.Target(k.name);
    if copy.lab.status.target == "" {
      copy.lab := copy.lab.(status := copy.lab.status.(target := n));
    }
    var ttl := ReconcileTtl(api, copy);
    match ttl {
      case Unparsable => return C.Err;
      case Expired =>
        AtExpired(api.st, k, copy.read, api.faults, api.calls);
        var ok := api.RemoveLab(k);
        return if ok then C.Done(0) else C.Err;
      case Alive(wait) =>
        if copy.read.spec.ttl.Lasts? {
          AtClock(api.st, k, copy.read, copy.lab.status, api.faults, api.calls);
        }
        verdict := Provision(api, k, copy, n, wait);
    }
  }

  method Provision(api: ApiServer, k: Key, copy: LabCopy, n: string, wait: int) returns (verdict: C.Then)
    requires n == api.st.Target(k.name)
    requires copy.lab == copy.read.(status := copy.lab.status)
    modifies api, copy
    ensures C.Finished(api.st, verdict, api.calls) ==
            C.Finish(old(api.st), k, C.ApplyNamespace(copy.read, old(copy.lab).status, wait), api.faults, old(api.calls))
  {
    hide C.Finish, Perform, ApplySpace, ApplyHard, ApplyPolicy, FailedFrom;
    PerformKeepsNames(api.st, ApplySpace(api.st, k, n, copy.lab.labels));
    ghost var mem := copy.lab.status;
    AtNamespace(api.st, k, copy.read, mem, wait, api.faults, api.calls);
    var ok := api.CreateOrUpdateNamespace(k, n, copy.lab.labels);
    if !ok {
      UpdateStatusFailed(api, k, copy, "NamespaceError");
      return C.Err;
    }
    AtQuota(api.st, k, copy.read, mem, wait, api.faults, api.calls);
    if AcceptsHard(api.st, n) {
      PerformKeepsNames(api.st, ApplyHard(api.st, n, copy.lab.spec.quota));
    }
    ok := api.CreateOrUpdateQuota(n, copy.lab.spec.quota);
    if !ok {
      UpdateStatusFailed(api, k, copy, "QuotaError");
      return C.Err;
    }
    AtNetwork(api.st, k, copy.read, mem, wait, api.faults, api.calls);
    if AcceptsPolicy(api.st, n) {
      PerformKeepsNames(api.st, ApplyPolicy(api.st, n, copy.lab.spec.network));
    }
    ok := api.CreateOrUpdatePolicy(n, copy.lab.spec.network);
    if !ok {
      UpdateStatusFailed(api, k, copy, "NetworkPolicyError");
      return C.Err;
    }
    ok := UpdateClusterLabStatus(api, k, copy, n, wait);
    if !ok {
      return C.Err;
    }
    return C.Done(if wait > 0 then wait else 0);
  }

  /** The failed status is written if possible; the pass ends in an error either way. */
  method UpdateStatusFailed(api: ApiServer, k: Key, copy: LabCopy, reason: string)
    requires copy.lab == copy.read.(status := copy.lab.status)
    modifies api, copy
    ensures C.Finished(api.st, C.Err, api.calls) ==
            FailedFrom(old(api.st), k, copy.read, old(copy.lab).status, reason, api.faults, old(api.calls))
  {
    var list := new ConditionList(copy.lab.status.conditions);
    list.SetCondition("Ready", false, reason, reason, api.st.now);
    copy.lab := copy.lab.(status := copy.lab.status.(phase := Failed, conditions := list.items));
    Unfold(api.st, k, C.WriteFailed(copy.read, copy.lab.status), api.faults, api.calls);
    var _ := api.SaveLab(k, copy.read, copy.lab);
  }

  method UpdateClusterLabStatus(api: ApiServer, k: Key, copy: LabCopy, n: string, wait: int) returns (ok: bool)
    requires n == api.st.Target(k.name)
    requires copy.lab == copy.read.(status := copy.lab.status)
    modifies api, copy
    ensures C.Finished(api.st, if ok then C.Done(if wait > 0 then wait else 0) else C.Err, api.calls) ==
            C.Finish(old(api.st), k, C.ListInstances(copy.read, old(copy.lab).status, wait), api.faults, old(api.calls))
  {
    hide C.Finish, Perform, Conditions.Set, Members, RunningMembers, Lists, UpdateLab;
    AtList(api.st, k, copy.read, copy.lab.status, wait, api.faults, api.calls);
    copy.lab := copy.lab.(status := copy.lab.status.(phase := Running, target := n));
    var items := api.ListInstances(k.origin);
    if items.Some? {
      var total, ready := CountMembers(api.st, k, items.value);
      copy.lab := copy.lab.(status := copy.lab.status.(total := total, ready := ready));
    }
    var list := new ConditionList(copy.lab.status.conditions);
    list.SetCondition("NamespaceReady", true, "NamespaceReconciled", C.NamespaceMessage(n), api.st.now);
    list.SetCondition("QuotaReady", true, "QuotaReconciled", "Resource limits successfully enforced", api.st.now);
    list.SetCondition("NetworkPolicyReady", true, "PolicyReconciled", C.PolicyMessage(copy.lab.spec.network), api.st.now);
    list.SetCondition("Ready", true, "ClusterReady", "ClusterLab is fully provisioned and operational", api.st.now);
    copy.lab := copy.lab.(status := copy.lab.status.(conditions := list.items));
    AtStatus(api.st, k, copy.read, copy.lab.status, wait, api.faults, api.calls);
    ok := api.SaveLab(k, copy.read, copy.lab);
  }

  lemma ListsExactly(items: seq<Key>, all: set<Key>, i: Key)
    requires Lists(items, all)
    ensures i in items <==> i in all
  {
    assert i in items <==> i in (set j | j in items);
  }

  /** How many of the listed keys lie in `some`. */
  ghost function CountIn(items: seq<Key>, some: set<Key>): nat
  {
    if items == [] then 0
    else CountIn(items[..|items| - 1], some) + if items[|items| - 1] in some then 1 else 0
  }

  lemma CountNext(items: seq<Key>, j: nat, some: set<Key>)
    requires j < |items|
    ensures CountIn(items[..j + 1], some) == CountIn(items[..j], some) + if items[j] in some then 1 else 0
  {
    assert items[..j + 1][..j] == items[..j];
  }

  /** Counting along a listing without repetition gives the size of the set. */
  lemma {:induction false} CountIsSize(items: seq<Key>, all: set<Key>, some: set<Key>)
    requires Lists(items, all) && some <= all
    ensures CountIn(items, some) == |some|
  {
    if items == [] {
      assert some == {};
    } else {
      var rest, last := items[..|items| - 1], items[|items| - 1];
      assert items == rest + [last] && last !in rest;
      assert (set i | i in rest) == all - {last};
      CountIsSize(rest, all - {last}, some - {last});
      CountOther(rest, some, last);
      assert last in some ==> some == (some - {last}) + {last};
      assert last !in some ==> some - {last} == some;
    }
  }

  lemma {:induction false} CountOther(items: seq<Key>, some: set<Key>, x: Key)
    requires x !in items
    ensures CountIn(items, some - {x}) == CountIn(items, some)
  {
    if items != [] {
      CountOther(items[..|items| - 1], some, x);
    }
  }

  /** The counting loop: over any listing, the counters come out as the sizes of the member sets. */
  method CountMembers(s: Store, k: Key, items: seq<Key>) returns (total: nat, ready: nat)
    requires Lists(items, set i | i in s.insts && i.origin == k.origin)
    ensures total == |Members(s, k)| && ready == |RunningMembers(s, k)|
  {
    ghost var all := set i | i in s.insts && i.origin == k.origin;
    forall i | i in items ensures i in all {
      ListsExactly(items, all, i);
    }
    CountIsSize(items, all, Members(s, k));
    CountIsSize(items, all, RunningMembers(s, k));
    hide Lists, CountIn;
    total, ready := 0, 0;
    for j := 0 to |items|
      invariant total == CountIn(items[..j], Members(s, k))
      invariant ready == CountIn(items[..j], RunningMembers(s, k))
    {
      var i := items[j];
      assert i in items && i in all;
      CountNext(items, j, Members(s, k));
      CountNext(items, j, RunningMembers(s, k));
      if s.insts[i].spec.ref == k.name {
        total := total + 1;
        if s.insts[i].status.phase == Running {
          ready := ready + 1;
        }
      }
    }
    assert items[..|items|] == items;
  }
}
