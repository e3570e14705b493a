/**
 What one reconcile of a live ClusterLab does, for every store and every way its calls can fail:
 whether it lets the ClusterLab expire, how far it gets with namespace, quota and policy, and what
 it reports and asks for. The read is call 0, then come namespace, quota, policy, list and status.
 */
module ProvisionPass {
  import opened Prelude
  import opened Conditions
  import opened LabStore
  import opened NoResidue
  import opened ClusterLabReconciler
  import C = ClusterLabController

  /** Stored, not under deletion, with the finalizer, and the read goes through. */
  ghost predicate Live(s: Store, k: Key, faults: nat -> bool)
  {
    k in s.labs && !s.labs[k].deleting && s.labs[k].finalizer && !faults(0)
  }

  /** Creation plus TTL has come. */
  predicate Over(lab: ClusterLab, now: int)
  {
    match lab.spec.ttl case Lasts(d) => lab.created + d <= now case _ => false
  }

  /** A live ClusterLab whose TTL is valid and not over, and whose namespace is not on its way out. */
  ghost predicate Provisionable(s: Store, k: Key, faults: nat -> bool)
  {
    && Live(s, k, faults) && !s.labs[k].spec.ttl.BadTtl? && !Over(s.labs[k], s.now)
    && TargetRight(s, k, s.labs[k].status)
    && (s.Target(k.name) in s.spaces ==> !s.spaces[s.Target(k.name)].terminating)
  }

  /** The calls from the namespace up to this one go through. */
  ghost predicate UpTo(faults: nat -> bool, j: nat) { forall c :: 1 <= c <= j ==> !faults(c) }

  function Reason(j: nat): string
  {
    if j == 1 then "NamespaceError" else if j == 2 then "QuotaError" else "NetworkPolicyError"
  }

  function Delay(lab: ClusterLab, now: int): int
  {
    match lab.spec.ttl case Lasts(d) => lab.created + d - now case _ => 0
  }

  function ExpiryOf(lab: ClusterLab): Option<int>
  {
    match lab.spec.ttl case Lasts(d) => Some(lab.created + d) case _ => None
  }

  /** The status in memory when provisioning begins. */
  lemma Begins(s: Store, k: Key, faults: nat -> bool) returns (mem: ClusterStatus)
    requires Provisionable(s, k, faults)
    ensures mem.target == s.Target(k.name) && mem.expiresAt == ExpiryOf(s.labs[k])
    ensures C.Finish(s, k, C.Get, faults, 0) ==
            C.Finish(s, k, C.ApplyNamespace(s.labs[k], mem, Delay(s.labs[k], s.now)), faults, 1)
  {
    hide C.Finish;
    mem := C.Opening(s, k, s.labs[k]);
    Unfold(s, k, C.Get, faults, 0);
    if s.labs[k].spec.ttl.Lasts? { AtClock(s, k, s.labs[k], mem, faults, 1); }
  }

  // ----- the namespace -----------------------------------------------------------------------------

  /** Labels, quota and policy by the last call that went through; everything else as it was. */
  ghost predicate Reaches(s: Store, t: Store, k: Key, lab: ClusterLab, faults: nat -> bool)
  {
    var n := s.Target(k.name);
    var hard := if n in s.spaces then s.spaces[n].hard else None;
    var policy := if n in s.spaces then s.spaces[n].policy else None;
    var objects := if n in s.spaces then s.spaces[n].objects else map[];
    && (n in t.spaces <==> n in s.spaces || UpTo(faults, 1))
    && (forall m :: m != n ==> (m in t.spaces <==> m in s.spaces) && (m in s.spaces ==> t.spaces[m] == s.spaces[m]))
    && (n in t.spaces ==>
          var space := t.spaces[n];
          && !space.terminating && space.objects == objects
          && (UpTo(faults, 1) ==>
                && "app.kubernetes.io/managed-by" in space.labels
                && space.labels["app.kubernetes.io/managed-by"] == "typ-lab-operator"
                && "lab.devops.toiyeuptit.com/clusterlab" in space.labels
                && space.labels["lab.devops.toiyeuptit.com/clusterlab"] == k.name)
          && (space.hard.Some? <==> hard.Some? || UpTo(faults, 2))
          && (!UpTo(faults, 2) ==> space.hard == hard)
          && space.policy == if UpTo(faults, 3) then Some(PolicyFor(lab.spec.network)) else policy)
  }

  lemma ReportSparesSpaces(s: Store, k: Key, p: C.Pass, faults: nat -> bool, calls: nat)
    requires p.WriteFailed? || p.WriteStatus?
    ensures C.Finish(s, k, p, faults, calls).st.spaces == s.spaces
  {
    Unfold(s, k, p, faults, calls);
  }

  lemma FailSparesSpaces(s: Store, k: Key, lab: ClusterLab, mem: ClusterStatus, reason: string, faults: nat -> bool, calls: nat)
    ensures FailedFrom(s, k, lab, mem, reason, faults, calls).st.spaces == s.spaces
  {
    hide C.Finish, C.FailedStatus;
    ReportSparesSpaces(s, k, C.WriteFailed(lab, C.FailedStatus(mem, reason, s.now)), faults, calls);
  }

  lemma ListSparesSpaces(s: Store, k: Key, lab: ClusterLab, mem: ClusterStatus, wait: int, faults: nat -> bool, calls: nat)
    ensures C.Finish(s, k, C.ListInstances(lab, mem, wait), faults, calls).st.spaces == s.spaces
  {
    hide C.Finish, C.RunningStatus, C.Counted;
    AtList(s, k, lab, mem, wait, faults, calls);
    ReportSparesSpaces(s, k, C.WriteStatus(lab, C.RunningStatus(C.Counted(s, k, mem, faults(calls)),
                       s.Target(k.name), lab.spec.network, s.now), wait), faults, calls + 1);
  }

  lemma Spaced(s: Store, k: Key, labels: map<string, string>) returns (t: Store)
    requires s.Target(k.name) in s.spaces ==> !s.spaces[s.Target(k.name)].terminating
    ensures t == Perform(s, ApplySpace(s, k, s.Target(k.name), labels))
    ensures var n := s.Target(k.name);
            && t == s.(spaces := t.spaces) && n in t.spaces && t.spaces == s.spaces[n := t.spaces[n]]
            && !t.spaces[n].terminating
            && t.spaces[n].objects == (if n in s.spaces then s.spaces[n].objects else map[])
            && t.spaces[n].hard == (if n in s.spaces then s.spaces[n].hard else None)
            && t.spaces[n].policy == (if n in s.spaces then s.spaces[n].policy else None)
            && IdentityIn(t.spaces[n].labels, k.name)
  {
    t := Perform(s, ApplySpace(s, k, s.Target(k.name), labels));
    IdentityStays(if s.Target(k.name) in s.spaces then s.spaces[s.Target(k.name)].labels else map[], k.name, labels);
    hide SpaceLabels, IdentityIn;
  }

  predicate IdentityIn(labels: map<string, string>, name: string)
  {
    && "app.kubernetes.io/managed-by" in labels && labels["app.kubernetes.io/managed-by"] == "typ-lab-operator"
    && "lab.devops.toiyeuptit.com/clusterlab" in labels && labels["lab.devops.toiyeuptit.com/clusterlab"] == name
  }

  lemma IdentityStays(was: map<string, string>, name: string, labels: map<string, string>)
    ensures IdentityIn(SpaceLabels(was, name, labels), name)
  {
    assert MANAGED_BY[0] == 'a' && "student_"[0] == 's' && "lab_"[0] == 'l' && "session_"[0] == 's';
    assert CLUSTER_LABEL[0] == 'l' && CLUSTER_LABEL[3] == '.' && "lab_"[3] == '_';
    assert !Propagates(MANAGED_BY) && !Propagates(CLUSTER_LABEL);
    hide Propagates;
  }

  lemma FromNetwork(s: Store, k: Key, lab: ClusterLab, mem: ClusterStatus, wait: int, faults: nat -> bool)
    requires s.Target(k.name) in s.spaces && !s.spaces[s.Target(k.name)].terminating
    ensures var n := s.Target(k.name);
            C.Finish(s, k, C.ApplyNetwork(lab, mem, wait), faults, 3).st.spaces ==
            if faults(3) then s.spaces
            else s.spaces[n := s.spaces[n].(policy := Some(PolicyFor(lab.spec.network)))]
  {
    hide C.Finish, FailedFrom, PolicyFor;
    AtNetwork(s, k, lab, mem, wait, faults, 3);
    if faults(3) {
      FailSparesSpaces(s, k, lab, mem, "NetworkPolicyError", faults, 4);
    } else {
      ListSparesSpaces(Perform(s, ApplyPolicy(s, s.Target(k.name), lab.spec.network)), k, lab, mem, wait, faults, 4);
    }
  }

  lemma FromQuota(s: Store, k: Key, lab: ClusterLab, mem: ClusterStatus, wait: int, faults: nat -> bool)
    requires s.Target(k.name) in s.spaces && !s.spaces[s.Target(k.name)].terminating
    ensures var n := s.Target(k.name);
            var t := C.Finish(s, k, C.ApplyQuota(lab, mem, wait), faults, 2).st;
            if faults(2) then t.spaces == s.spaces
            else
              && n in t.spaces && t.spaces == s.spaces[n := t.spaces[n]] && t.spaces[n].hard.Some?
              && t.spaces[n].policy ==
                 (if faults(3) then s.spaces[n].policy else Some(PolicyFor(lab.spec.network)))
              && t.spaces[n] == s.spaces[n].(hard := t.spaces[n].hard, policy := t.spaces[n].policy)
  {
    hide C.Finish, FailedFrom, PolicyFor, Hard;
    AtQuota(s, k, lab, mem, wait, faults, 2);
    if faults(2) {
      FailSparesSpaces(s, k, lab, mem, "QuotaError", faults, 3);
    } else {
      FromNetwork(Perform(s, ApplyHard(s, s.Target(k.name), lab.spec.quota)), k, lab, mem, wait, faults);
    }
  }

  /** The pass from the namespace on. */
  lemma ProvisionReaches(s: Store, k: Key, lab: ClusterLab, mem: ClusterStatus, wait: int, faults: nat -> bool)
    requires s.Target(k.name) in s.spaces ==> !s.spaces[s.Target(k.name)].terminating
    ensures Reaches(s, C.Finish(s, k, C.ApplyNamespace(lab, mem, wait), faults, 1).st, k, lab, faults)
  {
    hide C.Finish, FailedFrom, ApplySpace, PolicyFor, Perform, UpTo, Reaches;
    UpToThree(faults);
    AtNamespace(s, k, lab, mem, wait, faults, 1);
    if faults(1) {
      FailSparesSpaces(s, k, lab, mem, "NamespaceError", faults, 2);
      NothingReached(s, FailedFrom(s, k, lab, mem, "NamespaceError", faults, 2).st, k, lab, faults);
    } else {
      var s1 := Spaced(s, k, lab.labels);
      FromQuota(s1, k, lab, mem, wait, faults);
      SpaceReached(s, s1, C.Finish(s1, k, C.ApplyQuota(lab, mem, wait), faults, 2).st, k, lab, faults);
    }
  }

  lemma UpToThree(faults: nat -> bool)
    ensures UpTo(faults, 1) <==> !faults(1)
    ensures UpTo(faults, 2) <==> !faults(1) && !faults(2)
    ensures UpTo(faults, 3) <==> !faults(1) && !faults(2) && !faults(3)
  {
  }

  lemma NothingReached(s: Store, t: Store, k: Key, lab: ClusterLab, faults: nat -> bool)
    requires s.Target(k.name) in s.spaces ==> !s.spaces[s.Target(k.name)].terminating
    requires faults(1) && t.spaces == s.spaces
    ensures Reaches(s, t, k, lab, faults)
  {
    UpToThree(faults);
    hide UpTo;
  }

  /** From the namespace that was put in place to what quota and policy made of it. */
  lemma SpaceReached(s: Store, s1: Store, t: Store, k: Key, lab: ClusterLab, faults: nat -> bool)
    requires var n := s.Target(k.name);
             && !faults(1) && n in s1.spaces && s1.spaces == s.spaces[n := s1.spaces[n]] && !s1.spaces[n].terminating
             && s1.spaces[n].objects == (if n in s.spaces then s.spaces[n].objects else map[])
             && s1.spaces[n].hard == (if n in s.spaces then s.spaces[n].hard else None)
             && s1.spaces[n].policy == (if n in s.spaces then s.spaces[n].policy else None)
             && IdentityIn(s1.spaces[n].labels, k.name)
    requires var n := s.Target(k.name);
             if faults(2) then t.spaces == s1.spaces
             else
               && n in t.spaces && t.spaces == s1.spaces[n := t.spaces[n]] && t.spaces[n].hard.Some?
               && t.spaces[n].policy ==
                  (if faults(3) then s1.spaces[n].policy else Some(PolicyFor(lab.spec.network)))
               && t.spaces[n] == s1.spaces[n].(hard := t.spaces[n].hard, policy := t.spaces[n].policy)
    ensures Reaches(s, t, k, lab, faults)
  {
    hide UpTo, PolicyFor;
    UpToThree(faults);
  }

  /**
   How far provisioning gets: the namespace is there exactly if it was or its call goes through; its
   quota exactly if it was there or the calls up to it do; its policy is that of the network mode
   exactly if all three do, and otherwise the old one. Nothing else in any namespace changes.
   */
  lemma ProvisionsExactly(s: Store, k: Key, faults: nat -> bool)
    requires Provisionable(s, k, faults)
    ensures Reaches(s, C.Finish(s, k, C.Get, faults, 0).st, k, s.labs[k], faults)
  {
    hide C.Finish, Reaches;
    var mem := Begins(s, k, faults);
    ProvisionReaches(s, k, s.labs[k], mem, Delay(s.labs[k], s.now), faults);
  }

  // ----- verdict and report ---------------------------------------------------------------------------

  lemma FailTells(s: Store, k: Key, lab: ClusterLab, mem: ClusterStatus, reason: string, faults: nat -> bool, calls: nat)
    requires CurrentLab(s, k, lab) && !lab.deleting
    ensures var f := FailedFrom(s, k, lab, mem, reason, faults, calls);
            && f.verdict == C.Err
            && (!faults(calls) ==>
                  && k in f.st.labs && f.st.labs[k] == lab.(status := f.st.labs[k].status)
                  && f.st.labs[k].status.phase == Failed
                  && f.st.labs[k].status.target == mem.target && f.st.labs[k].status.expiresAt == mem.expiresAt
                  && var c := Lookup(f.st.labs[k].status.conditions, "Ready");
                     c.Some? && !c.value.status && c.value.reason == reason)
  {
    hide C.Finish, Set, Lookup;
    Unfold(s, k, C.WriteFailed(lab, C.FailedStatus(mem, reason, s.now)), faults, calls);
    SetLookup(mem.conditions, Condition("Ready", false, reason, reason, s.now), "Ready");
  }

  ghost predicate Says(cs: seq<Condition>, kind: string, reason: string, message: string)
  {
    var c := Lookup(cs, kind);
    c.Some? && c.value.status && c.value.reason == reason && c.value.message == message
  }

  /** The four reports of a full pass. */
  ghost predicate AllReported(cs: seq<Condition>, n: string, network: string)
  {
    && Says(cs, "NamespaceReady", "NamespaceReconciled", "Namespace " + n + " is active and operational")
    && Says(cs, "QuotaReady", "QuotaReconciled", "Resource limits successfully enforced")
    && Says(cs, "NetworkPolicyReady", "PolicyReconciled", "Network mode applied: " + network)
    && Says(cs, "Ready", "ClusterReady", "ClusterLab is fully provisioned and operational")
  }

  lemma StaysSaid(cs: seq<Condition>, c: Condition, kind: string, reason: string, message: string)
    requires Says(cs, kind, reason, message) && c.kind != kind
    ensures Says(Set(cs, c), kind, reason, message)
  {
    SetLookup(cs, c, kind);
  }

  lemma NowSaid(cs: seq<Condition>, c: Condition)
    requires c.status
    ensures Says(Set(cs, c), c.kind, c.reason, c.message)
  {
    SetLookup(cs, c, c.kind);
  }

  lemma RunningReports(mem: ClusterStatus, n: string, network: string, now: int)
    ensures AllReported(C.RunningStatus(mem, n, network, now).conditions, n, network)
  {
    hide Set, Lookup, Says;
    var m1, m2 := "Namespace " + n + " is active and operational", "Resource limits successfully enforced";
    var m3, m4 := "Network mode applied: " + network, "ClusterLab is fully provisioned and operational";
    var r1 := Condition("NamespaceReady", true, "NamespaceReconciled", m1, now);
    var r2 := Condition("QuotaReady", true, "QuotaReconciled", m2, now);
    var r3 := Condition("NetworkPolicyReady", true, "PolicyReconciled", m3, now);
    var r4 := Condition("Ready", true, "ClusterReady", m4, now);
    var c1 := Set(mem.conditions, r1);
    var c2 := Set(c1, r2);
    var c3 := Set(c2, r3);
    assert |"NamespaceReady"| == 14 && |"QuotaReady"| == 10 && |"NetworkPolicyReady"| == 18 && |"Ready"| == 5;
    NowSaid(mem.conditions, r1);
    StaysSaid(c1, r2, r1.kind, r1.reason, m1);
    StaysSaid(c2, r3, r1.kind, r1.reason, m1);
    StaysSaid(c3, r4, r1.kind, r1.reason, m1);
    NowSaid(c1, r2);
    StaysSaid(c2, r3, r2.kind, r2.reason, m2);
    StaysSaid(c3, r4, r2.kind, r2.reason, m2);
    NowSaid(c2, r3);
    StaysSaid(c3, r4, r3.kind, r3.reason, m3);
    NowSaid(c3, r4);
  }

  /** Stored as a full pass leaves it. */
  ghost predicate Ran(f: C.Finished, k: Key, lab: ClusterLab, n: string, expiry: Option<int>)
  {
    && k in f.st.labs && f.st.labs[k] == lab.(status := f.st.labs[k].status)
    && f.st.labs[k].status.phase == Running && f.st.labs[k].status.target == n
    && f.st.labs[k].status.expiresAt == expiry
    && AllReported(f.st.labs[k].status.conditions, n, lab.spec.network)
  }

  lemma RunTells(s: Store, k: Key, lab: ClusterLab, mem: ClusterStatus, wait: int, faults: nat -> bool, calls: nat)
    requires CurrentLab(s, k, lab) && !lab.deleting
    ensures var f := C.Finish(s, k, C.ListInstances(lab, mem, wait), faults, calls);
            if faults(calls + 1) then f.verdict == C.Err
            else f.verdict == C.Done(if wait > 0 then wait else 0) && Ran(f, k, lab, s.Target(k.name), mem.expiresAt)
  {
    hide C.Finish, Members, RunningMembers, Set, AllReported;
    var counted := C.Counted(s, k, mem, faults(calls));
    var report := C.RunningStatus(counted, s.Target(k.name), lab.spec.network, s.now);
    AtList(s, k, lab, mem, wait, faults, calls);
    AtStatus(s, k, lab, report, wait, faults, calls + 1);
    RunningReports(counted, s.Target(k.name), lab.spec.network, s.now);
  }

  /** A failure of the call `j`, the first of the three: what the ClusterLab says of it. */
  ghost predicate Refused(f: C.Finished, k: Key, n: string, faults: nat -> bool, j: nat)
  {
    && f.verdict == C.Err
    && (!faults(j + 1) ==>
          && k in f.st.labs && f.st.labs[k].status.phase == Failed
          && f.st.labs[k].status.target == n && f.st.labs[k].status.expiresAt == ExpiryOf(f.st.labs[k])
          && var c := Lookup(f.st.labs[k].status.conditions, "Ready");
             c.Some? && !c.value.status && c.value.reason == Reason(j))
  }

  /** Only namespaces differ, and the target is active. */
  ghost predicate OnTheWay(s: Store, t: Store, n: string)
  {
    && t == s.(spaces := t.spaces)
    && n in t.spaces && !t.spaces[n].terminating
  }

  lemma PastNamespace(s: Store, k: Key, lab: ClusterLab, mem: ClusterStatus, wait: int, faults: nat -> bool)
    returns (t: Store)
    requires !faults(1) && (s.Target(k.name) in s.spaces ==> !s.spaces[s.Target(k.name)].terminating)
    ensures OnTheWay(s, t, s.Target(k.name))
    ensures C.Finish(s, k, C.ApplyNamespace(lab, mem, wait), faults, 1) ==
            C.Finish(t, k, C.ApplyQuota(lab, mem, wait), faults, 2)
  {
    hide C.Finish, FailedFrom, ApplySpace;
    AtNamespace(s, k, lab, mem, wait, faults, 1);
    t := Spaced(s, k, lab.labels);
  }

  lemma PastQuota(s: Store, k: Key, lab: ClusterLab, mem: ClusterStatus, wait: int, faults: nat -> bool)
    returns (t: Store)
    requires !faults(2) && OnTheWay(s, s, s.Target(k.name))
    ensures OnTheWay(s, t, s.Target(k.name))
    ensures C.Finish(s, k, C.ApplyQuota(lab, mem, wait), faults, 2) ==
            C.Finish(t, k, C.ApplyNetwork(lab, mem, wait), faults, 3)
  {
    hide C.Finish, FailedFrom, Hard;
    AtQuota(s, k, lab, mem, wait, faults, 2);
    t := Perform(s, ApplyHard(s, s.Target(k.name), lab.spec.quota));
  }

  lemma PastNetwork(s: Store, k: Key, lab: ClusterLab, mem: ClusterStatus, wait: int, faults: nat -> bool)
    returns (t: Store)
    requires !faults(3) && OnTheWay(s, s, s.Target(k.name))
    ensures OnTheWay(s, t, s.Target(k.name))
    ensures C.Finish(s, k, C.ApplyNetwork(lab, mem, wait), faults, 3) ==
            C.Finish(t, k, C.ListInstances(lab, mem, wait), faults, 4)
  {
    hide C.Finish, FailedFrom, PolicyFor;
    AtNetwork(s, k, lab, mem, wait, faults, 3);
    t := Perform(s, ApplyPolicy(s, s.Target(k.name), lab.spec.network));
  }

  lemma ProvisionRefused(s: Store, k: Key, lab: ClusterLab, mem: ClusterStatus, wait: int, faults: nat -> bool, j: nat)
    requires CurrentLab(s, k, lab) && !lab.deleting && 1 <= j <= 3 && faults(j) && UpTo(faults, j - 1)
    requires s.Target(k.name) in s.spaces ==> !s.spaces[s.Target(k.name)].terminating
    requires mem.target == s.Target(k.name) && mem.expiresAt == ExpiryOf(lab)
    ensures Refused(C.Finish(s, k, C.ApplyNamespace(lab, mem, wait), faults, 1), k, s.Target(k.name), faults, j)
  {
    hide C.Finish, FailedFrom, Lookup, Perform, ApplySpace;
    if j == 1 {
      AtNamespace(s, k, lab, mem, wait, faults, 1);
      FailTells(s, k, lab, mem, "NamespaceError", faults, 2);
    } else {
      var s1 := PastNamespace(s, k, lab, mem, wait, faults);
      hide Refused;
      QuotaRefused(s1, k, lab, mem, wait, faults, j);
    }
  }

  lemma QuotaRefused(s: Store, k: Key, lab: ClusterLab, mem: ClusterStatus, wait: int, faults: nat -> bool, j: nat)
    requires CurrentLab(s, k, lab) && !lab.deleting && 2 <= j <= 3 && faults(j) && UpTo(faults, j - 1)
    requires OnTheWay(s, s, s.Target(k.name)) && mem.target == s.Target(k.name) && mem.expiresAt == ExpiryOf(lab)
    ensures Refused(C.Finish(s, k, C.ApplyQuota(lab, mem, wait), faults, 2), k, s.Target(k.name), faults, j)
  {
    hide C.Finish, FailedFrom, Lookup, Perform, ApplyHard, ApplyPolicy;
    if j == 2 {
      AtQuota(s, k, lab, mem, wait, faults, 2);
      FailTells(s, k, lab, mem, "QuotaError", faults, 3);
    } else {
      var s2 := PastQuota(s, k, lab, mem, wait, faults);
      AtNetwork(s2, k, lab, mem, wait, faults, 3);
      FailTells(s2, k, lab, mem, "NetworkPolicyError", faults, 4);
    }
  }

  /**
   The first of the three calls that fails ends the reconcile in an error, and if the status write
   goes through, the phase is Failed and Ready is false for the reason of that call.
   */
  lemma RefusalTells(s: Store, k: Key, faults: nat -> bool, j: nat)
    requires Provisionable(s, k, faults) && 1 <= j <= 3 && faults(j) && UpTo(faults, j - 1)
    ensures Refused(C.Finish(s, k, C.Get, faults, 0), k, s.Target(k.name), faults, j)
  {
    hide C.Finish, Refused;
    var mem := Begins(s, k, faults);
    ProvisionRefused(s, k, s.labs[k], mem, Delay(s.labs[k], s.now), faults, j);
  }

  lemma ProvisionRuns(s: Store, k: Key, lab: ClusterLab, mem: ClusterStatus, wait: int, faults: nat -> bool)
    requires CurrentLab(s, k, lab) && !lab.deleting && UpTo(faults, 3)
    requires s.Target(k.name) in s.spaces ==> !s.spaces[s.Target(k.name)].terminating
    ensures var f := C.Finish(s, k, C.ApplyNamespace(lab, mem, wait), faults, 1);
            if faults(5) then f.verdict == C.Err
            else f.verdict == C.Done(if wait > 0 then wait else 0) && Ran(f, k, lab, s.Target(k.name), mem.expiresAt)
  {
    hide C.Finish, Ran;
    var s1 := PastNamespace(s, k, lab, mem, wait, faults);
    var s2 := PastQuota(s1, k, lab, mem, wait, faults);
    var s3 := PastNetwork(s2, k, lab, mem, wait, faults);
    RunTells(s3, k, lab, mem, wait, faults, 4);
  }

  /**
   A reconcile whose three calls and status write go through: phase Running, the target, the exact
   expiry and the four reports, and another look exactly when the TTL is over; none without a TTL.
   */
  lemma RunningTells(s: Store, k: Key, faults: nat -> bool)
    requires Provisionable(s, k, faults) && UpTo(faults, 3)
    ensures var f := C.Finish(s, k, C.Get, faults, 0);
            var lab := s.labs[k];
            if faults(5) then f.verdict == C.Err
            else
              && f.verdict == C.Done(match lab.spec.ttl case Lasts(d) => lab.created + d - s.now case _ => 0)
              && Ran(f, k, lab, s.Target(k.name),
                     match lab.spec.ttl case Lasts(d) => Some(lab.created + d) case _ => None)
  {
    hide C.Finish;
    var mem := Begins(s, k, faults);
    ProvisionRuns(s, k, s.labs[k], mem, Delay(s.labs[k], s.now), faults);
  }

  // ----- expiry ----------------------------------------------------------------------------------------

  /**
   A live ClusterLab is deleted by a reconcile exactly if its TTL is valid and over, from the very
   instant of creation plus TTL on, and the Delete goes through.
   */
  lemma ExpiresExactly(s: Store, k: Key, faults: nat -> bool)
    requires Live(s, k, faults)
    ensures var t := C.Finish(s, k, C.Get, faults, 0).st;
            k in t.labs && (t.labs[k].deleting <==> Over(s.labs[k], s.now) && !faults(1))
  {
    hide C.Finish;
    var lab := s.labs[k];
    Unfold(s, k, C.Get, faults, 0);
    if Over(lab, s.now) {
      AtExpired(s, k, lab, faults, 1);
    } else if !lab.spec.ttl.BadTtl? {
      var mem := C.Opening(s, k, lab);
      if lab.spec.ttl.Lasts? { AtClock(s, k, lab, mem, faults, 1); }
      StaysLive(s, k, lab, C.ApplyNamespace(lab, mem, Delay(lab, s.now)), faults, 1);
    }
  }

  /** A pass that provisions ends no life. */
  lemma {:induction false} StaysLive(s: Store, k: Key, lab: ClusterLab, p: C.Pass, faults: nat -> bool, calls: nat)
    requires CurrentLab(s, k, lab) && !lab.deleting && C.Provisions(p) && p.lab == lab
    ensures var t := C.Finish(s, k, p, faults, calls).st; k in t.labs && !t.labs[k].deleting
    decreases C.Rank(p)
  {
    hide C.Finish, C.RunningStatus, C.FailedStatus, C.Counted, SpaceLabels, Hard, PolicyFor;
    Unfold(s, k, p, faults, calls);
    var out := C.Call(s, k, p, faults(calls));
    if out.then_.Next? {
      StaysLive(Perform(s, out.write), k, lab, out.then_.pass, faults, if C.Silent(p) then calls else calls + 1);
    }
  }

  // ----- deletion --------------------------------------------------------------------------------------

  /**
   A reconcile of a ClusterLab under deletion: it marks the namespace on record, or the derived one if
   none is, and looks again in three seconds unless that namespace is known not to be found; then,
   and only then, it lets the ClusterLab go.
   */
  lemma DeletesExactly(s: Store, k: Key, faults: nat -> bool)
    requires k in s.labs && s.labs[k].deleting && s.labs[k].finalizer && !faults(0)
    ensures var f := C.Finish(s, k, C.Get, faults, 0);
            var target := if s.labs[k].status.target == "" then s.Target(k.name) else s.labs[k].status.target;
            if faults(1) then f.verdict == C.Err && f.st == s
            else if target in s.spaces then
              && f.verdict == C.Done(3_000_000_000) && f.st.labs == s.labs
              && f.st.spaces == s.spaces[target := s.spaces[target].(terminating := true)]
            else if faults(2) then f.verdict == C.Done(3_000_000_000) && f.st == s
            else if faults(3) then f.verdict == C.Err && f.st == s
            else f.verdict == C.Done(0) && f.st.labs == s.labs - {k} && f.st.spaces == s.spaces
  {
    hide C.Finish;
    var lab := s.labs[k];
    Unfold(s, k, C.Get, faults, 0);
    Unfold(s, k, C.DeleteTarget(lab), faults, 1);
    if !faults(1) {
      var t := Perform(s, DeleteSpace(s, C.CleanupTarget(s, k, lab)));
      Unfold(t, k, C.CheckTarget(lab), faults, 2);
      Unfold(t, k, C.RemoveFinalizer(lab), faults, 3);
    }
  }

  /** The other reconciles: of nothing, of a new ClusterLab, and of one whose TTL cannot be read. */
  lemma OtherPasses(s: Store, k: Key, faults: nat -> bool)
    requires !faults(0)
    ensures var f := C.Finish(s, k, C.Get, faults, 0);
            && (k !in s.labs ==> f.verdict == C.Done(0) && f.st == s)
            && (k in s.labs && !s.labs[k].deleting && !s.labs[k].finalizer ==>
                  if faults(1) then f.verdict == C.Err && f.st == s
                  else
                    && f.verdict == C.Done(0) && f.st.spaces == s.spaces && f.st.insts == s.insts
                    && f.st.labs == s.labs[k := s.labs[k].(finalizer := true)])
            && (Live(s, k, faults) && s.labs[k].spec.ttl.BadTtl? ==> f.verdict == C.Err && f.st == s)
  {
    hide C.Finish;
    Unfold(s, k, C.Get, faults, 0);
    if k in s.labs && !s.labs[k].deleting && !s.labs[k].finalizer {
      Unfold(s, k, C.AddFinalizer(s.labs[k]), faults, 1);
    }
  }
}
