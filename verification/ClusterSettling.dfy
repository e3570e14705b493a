/**
 Self-triggering comes to rest: with specs, children and users still, passes over a
 ClusterLab that meet no failure change the store at most four times, however the clock
 moves between them. Each status write queues its own key again and every pass reports four
 conditions with a fresh time, so this rests on what a repeated pass writes.
 */
module ClusterSettling {
  import opened Prelude
  import opened Conditions
  import opened LabStore
  import opened ClusterLabReconciler
  import C = ClusterLabController

  const NONE: nat -> bool := _ => false

  /** The store after a pass that meets no failure. */
  function Pass(s: Store, k: Key): Store
  {
    C.Finish(s, k, C.Get, NONE, 0).st
  }

  predicate Expired(lab: ClusterLab, now: int)
  {
    lab.spec.ttl.Lasts? && now >= lab.created + lab.spec.ttl.duration
  }

  /** A live ClusterLab whose passes change nothing, whatever the time, until it expires. */
  ghost predicate Steady(s: Store, k: Key)
  {
    && k in s.labs
    && forall later :: later >= s.now && !Expired(s.labs[k], later) ==>
         Pass(s.(now := later), k) == s.(now := later)
  }

  /** How many more passes can change something. */
  ghost function Work(s: Store, k: Key): nat
  {
    if k !in s.labs then 0
    else
      var lab := s.labs[k];
      if lab.deleting then
        var n := C.CleanupTarget(s, k, lab);
        if !lab.finalizer || (n in s.spaces && s.spaces[n].terminating) then 0 else 1
      else if !lab.finalizer then 4
      else if Steady(s, k) then 2 else 3
  }

  // ----- what a repeated provisioning pass writes ---------------------------------

  lemma LabelsSettle(was: map<string, string>, name: string, labels: map<string, string>)
    ensures SpaceLabels(SpaceLabels(was, name, labels), name, labels) == SpaceLabels(was, name, labels)
  {
  }

  lemma HardSettles(was: Option<map<Resource, int>>, q: QuotaSpec)
    ensures Hard(Some(Hard(was, q)), q) == Hard(was, q)
  {
    hide Asked;
  }

  /** The four reports of a full pass, made again at any later time. */
  lemma RunningSettles(mem: ClusterStatus, target: string, network: string, now: int, later: int)
    ensures var once := C.RunningStatus(mem, target, network, now);
            C.RunningStatus(once, target, network, later) == once
  {
    var r1 := Condition("NamespaceReady", true, "NamespaceReconciled", C.NamespaceMessage(target), now);
    var r2 := Condition("QuotaReady", true, "QuotaReconciled", "Resource limits successfully enforced", now);
    var r3 := Condition("NetworkPolicyReady", true, "PolicyReconciled", C.PolicyMessage(network), now);
    var r4 := Condition("Ready", true, "ClusterReady", "ClusterLab is fully provisioned and operational", now);
    var c1 := Set(mem.conditions, r1);
    var c2 := Set(c1, r2);
    var c3 := Set(c2, r3);
    var c4 := Set(c3, r4);
    Answered(mem.conditions, r1, later);
    StaysAnswered(c1, r2, r1.(since := later));
    StaysAnswered(c2, r3, r1.(since := later));
    StaysAnswered(c3, r4, r1.(since := later));
    Answered(c1, r2, later);
    StaysAnswered(c2, r3, r2.(since := later));
    StaysAnswered(c3, r4, r2.(since := later));
    Answered(c2, r3, later);
    StaysAnswered(c3, r4, r3.(since := later));
    Answered(c3, r4, later);
    SetNoChange(c4, r1.(since := later));
    SetNoChange(c4, r2.(since := later));
    SetNoChange(c4, r3.(since := later));
    SetNoChange(c4, r4.(since := later));
  }

  /** The list answers report `c`: making it would change nothing. */
  ghost predicate Answers(cs: seq<Condition>, c: Condition)
  {
    Lookup(cs, c.kind).Some? && Merge(Lookup(cs, c.kind).value, c) == Lookup(cs, c.kind).value
  }

  lemma Answered(cs: seq<Condition>, c: Condition, later: int)
    ensures Answers(Set(cs, c), c.(since := later))
  {
    SetLookup(cs, c, c.kind);
    LookupFinds(cs, c.kind);
  }

  lemma StaysAnswered(cs: seq<Condition>, other: Condition, c: Condition)
    requires Answers(cs, c) && other.kind != c.kind
    ensures Answers(Set(cs, other), c)
  {
    SetLookup(cs, other, c.kind);
  }

  lemma FailedSettles(mem: ClusterStatus, reason: string, now: int, later: int)
    ensures var once := C.FailedStatus(mem, reason, now); C.FailedStatus(once, reason, later) == once
  {
    SetIdempotent(mem.conditions, Condition("Ready", false, reason, reason, now), later);
  }

  // ----- a provisioning pass in closed form ------------------------------------------

  function Spaced(s: Store, k: Key, lab: ClusterLab): Store
  {
    Perform(s, ApplySpace(s, k, s.Target(k.name), lab.labels))
  }

  function Limited(s: Store, k: Key, lab: ClusterLab): Store
    requires AcceptsHard(s, s.Target(k.name))
  {
    Perform(s, ApplyHard(s, s.Target(k.name), lab.spec.quota))
  }

  function Policed(s: Store, k: Key, lab: ClusterLab): Store
    requires AcceptsPolicy(s, s.Target(k.name))
  {
    Perform(s, ApplyPolicy(s, s.Target(k.name), lab.spec.network))
  }

  /** The status a pass reports; `refused` names the step that the API server refused, if any. */
  function Report(s: Store, k: Key, lab: ClusterLab, mem: ClusterStatus, refused: string): ClusterStatus
  {
    if refused != "" then C.FailedStatus(mem, refused, s.now)
    else C.RunningStatus(C.Counted(s, k, mem, false), s.Target(k.name), lab.spec.network, s.now)
  }

  function Reported(s: Store, k: Key, lab: ClusterLab, mem: ClusterStatus, refused: string): Store
  {
    Perform(s, PutLab(k, lab.(status := Report(s, k, lab, mem, refused))))
  }

  function FromNetwork(s: Store, k: Key, lab: ClusterLab, mem: ClusterStatus): Store
  {
    if !AcceptsPolicy(s, s.Target(k.name)) then Reported(s, k, lab, mem, "NetworkPolicyError")
    else Reported(Policed(s, k, lab), k, lab, mem, "")
  }

  function FromQuota(s: Store, k: Key, lab: ClusterLab, mem: ClusterStatus): Store
  {
    if !AcceptsHard(s, s.Target(k.name)) then Reported(s, k, lab, mem, "QuotaError")
    else FromNetwork(Limited(s, k, lab), k, lab, mem)
  }

  function Provisioned(s: Store, k: Key, lab: ClusterLab, mem: ClusterStatus): Store
  {
    FromQuota(Spaced(s, k, lab), k, lab, mem)
  }

  lemma SpacesOnly(s: Store, w: Write)
    requires w.PutSpace?
    ensures var t := Perform(s, w); t == s.(spaces := t.spaces)
  {
  }

  lemma FailsWith(s: Store, k: Key, lab: ClusterLab, mem: ClusterStatus, reason: string, calls: nat)
    requires CurrentLab(s, k, lab) && !lab.deleting && reason != ""
    ensures FailedFrom(s, k, lab, mem, reason, NONE, calls).st == Reported(s, k, lab, mem, reason)
  {
    hide C.Finish, C.FailedStatus;
    Unfold(s, k, C.WriteFailed(lab, C.FailedStatus(mem, reason, s.now)), NONE, calls);
  }

  lemma ListsAndWrites(s: Store, k: Key, lab: ClusterLab, mem: ClusterStatus, wait: int, calls: nat)
    requires CurrentLab(s, k, lab) && !lab.deleting
    ensures C.Finish(s, k, C.ListInstances(lab, mem, wait), NONE, calls).st == Reported(s, k, lab, mem, "")
  {
    hide C.Finish, C.RunningStatus, C.Counted;
    AtList(s, k, lab, mem, wait, NONE, calls);
    AtStatus(s, k, lab, Report(s, k, lab, mem, ""), wait, NONE, calls + 1);
  }

  lemma RunsNetwork(s: Store, k: Key, lab: ClusterLab, mem: ClusterStatus, wait: int, calls: nat)
    requires CurrentLab(s, k, lab) && !lab.deleting
    ensures C.Finish(s, k, C.ApplyNetwork(lab, mem, wait), NONE, calls).st == FromNetwork(s, k, lab, mem)
  {
    hide C.Finish, FailedFrom, Reported, ApplyPolicy, Perform;
    var n := s.Target(k.name);
    AtNetwork(s, k, lab, mem, wait, NONE, calls);
    if AcceptsPolicy(s, n) {
      PolicyPut(s, n, lab.spec.network);
      SpacesOnly(s, ApplyPolicy(s, n, lab.spec.network));
      ListsAndWrites(Policed(s, k, lab), k, lab, mem, wait, calls + 1);
    } else {
      FailsWith(s, k, lab, mem, "NetworkPolicyError", calls + 1);
    }
  }

  lemma RunsQuota(s: Store, k: Key, lab: ClusterLab, mem: ClusterStatus, wait: int, calls: nat)
    requires CurrentLab(s, k, lab) && !lab.deleting
    ensures C.Finish(s, k, C.ApplyQuota(lab, mem, wait), NONE, calls).st == FromQuota(s, k, lab, mem)
  {
    hide C.Finish, FailedFrom, Reported, ApplyHard, Perform, FromNetwork;
    var n := s.Target(k.name);
    AtQuota(s, k, lab, mem, wait, NONE, calls);
    if AcceptsHard(s, n) {
      HardPut(s, n, lab.spec.quota);
      SpacesOnly(s, ApplyHard(s, n, lab.spec.quota));
      RunsNetwork(Limited(s, k, lab), k, lab, mem, wait, calls + 1);
    } else {
      FailsWith(s, k, lab, mem, "QuotaError", calls + 1);
    }
  }

  lemma Provisions(s: Store, k: Key, lab: ClusterLab, mem: ClusterStatus, wait: int, calls: nat)
    requires CurrentLab(s, k, lab) && !lab.deleting
    ensures C.Finish(s, k, C.ApplyNamespace(lab, mem, wait), NONE, calls).st == Provisioned(s, k, lab, mem)
  {
    hide C.Finish, FailedFrom, ApplySpace, Perform, FromQuota;
    var n := s.Target(k.name);
    AtNamespace(s, k, lab, mem, wait, NONE, calls);
    SpacePut(s, k, n, lab.labels);
    SpacesOnly(s, ApplySpace(s, k, n, lab.labels));
    RunsQuota(Spaced(s, k, lab), k, lab, mem, wait, calls + 1);
  }

  lemma SpacePut(s: Store, k: Key, n: string, labels: map<string, string>)
    ensures ApplySpace(s, k, n, labels).PutSpace?
  {
  }

  lemma HardPut(s: Store, n: string, q: QuotaSpec)
    requires AcceptsHard(s, n)
    ensures ApplyHard(s, n, q).PutSpace?
  {
  }

  lemma PolicyPut(s: Store, n: string, network: string)
    requires AcceptsPolicy(s, n)
    ensures ApplyPolicy(s, n, network).PutSpace?
  {
  }

  /** A pass over a live ClusterLab with the finalizer. */
  lemma LivePass(s: Store, k: Key)
    requires k in s.labs && !s.labs[k].deleting && s.labs[k].finalizer
    ensures var lab := s.labs[k];
            Pass(s, k) ==
            if lab.spec.ttl.BadTtl? then s
            else if Expired(lab, s.now) then Perform(s, DeleteLab(s, k))
            else Provisioned(s, k, lab, C.Opening(s, k, lab))
  {
    hide C.Finish, Provisioned, Perform;
    var lab := s.labs[k];
    var mem := C.Opening(s, k, lab);
    GetPass(s, k);
    match lab.spec.ttl {
      case NoTtl => Provisions(s, k, lab, mem, 0, 1);
      case BadTtl =>
      case Lasts(d) =>
        if Expired(lab, s.now) {
          AtExpired(s, k, lab, NONE, 1);
        } else {
          AtClock(s, k, lab, mem, NONE, 1);
          Provisions(s, k, lab, mem, mem.expiresAt.value - s.now, 1);
        }
    }
  }

  lemma GetPass(s: Store, k: Key)
    requires k in s.labs
    ensures var t := C.Dispatch(s, k, s.labs[k]);
            Pass(s, k) == if t.Next? then C.Finish(s, k, t.pass, NONE, 1).st else s
  {
    hide C.Finish, C.Dispatch;
    Unfold(s, k, C.Get, NONE, 0);
  }

  // ----- the second pass ----------------------------------------------------------------

  ghost predicate LabelsDone(s: Store, k: Key, lab: ClusterLab)
  {
    var n := s.Target(k.name);
    n in s.spaces && SpaceLabels(s.spaces[n].labels, k.name, lab.labels) == s.spaces[n].labels
  }

  ghost predicate HardDone(s: Store, k: Key, lab: ClusterLab)
  {
    var n := s.Target(k.name);
    n in s.spaces && s.spaces[n].hard.Some? && Hard(s.spaces[n].hard, lab.spec.quota) == s.spaces[n].hard.value
  }

  ghost predicate PolicyDone(s: Store, k: Key, lab: ClusterLab)
  {
    var n := s.Target(k.name);
    n in s.spaces && s.spaces[n].policy == Some(PolicyFor(lab.spec.network))
  }

  /** The stored status is what a pass with this outcome would write at any later time. */
  ghost predicate ReportDone(s: Store, k: Key, refused: string)
  {
    && k in s.labs
    && C.Opening(s, k, s.labs[k]) == s.labs[k].status
    && forall later :: Report(s.(now := later), k, s.labs[k], s.labs[k].status, refused) == s.labs[k].status
  }

  /** Everything a provisioning pass would write is already there. */
  ghost predicate AllDone(s: Store, k: Key)
  {
    && k in s.labs
    && LabelsDone(s, k, s.labs[k])
    && var n := s.Target(k.name);
       if !AcceptsHard(s, n) then ReportDone(s, k, "QuotaError")
       else
         && HardDone(s, k, s.labs[k])
         && if !AcceptsPolicy(s, n) then ReportDone(s, k, "NetworkPolicyError")
            else PolicyDone(s, k, s.labs[k]) && ReportDone(s, k, "")
  }

  lemma SpacedSame(s: Store, k: Key, lab: ClusterLab)
    requires LabelsDone(s, k, lab)
    ensures Spaced(s, k, lab) == s
  {
    hide SpaceLabels;
    var n := s.Target(k.name);
    assert s.spaces[n := s.spaces[n]] == s.spaces;
  }

  lemma LimitedSame(s: Store, k: Key, lab: ClusterLab)
    requires HardDone(s, k, lab)
    ensures Limited(s, k, lab) == s
  {
    hide Hard;
    var n := s.Target(k.name);
    assert s.spaces[n := s.spaces[n]] == s.spaces;
  }

  lemma PolicedSame(s: Store, k: Key, lab: ClusterLab)
    requires PolicyDone(s, k, lab)
    ensures Policed(s, k, lab) == s
  {
    hide PolicyFor;
    var n := s.Target(k.name);
    assert s.spaces[n := s.spaces[n]] == s.spaces;
  }

  lemma ReportedSame(s: Store, k: Key, refused: string, later: int)
    requires ReportDone(s, k, refused)
    ensures var u := s.(now := later); Reported(u, k, s.labs[k], s.labs[k].status, refused) == u
  {
    hide Report;
  }

  lemma DoneStays(s: Store, k: Key, later: int)
    requires AllDone(s, k)
    ensures var u := s.(now := later); Provisioned(u, k, u.labs[k], C.Opening(u, k, u.labs[k])) == u
  {
    var u := s.(now := later);
    var lab := s.labs[k];
    hide Spaced, Limited, Policed, Reported, Report, C.Opening, SpaceLabels, Hard, PolicyFor;
    SpacedSame(u, k, lab);
    if AcceptsHard(s, s.Target(k.name)) {
      LimitedSame(u, k, lab);
      if AcceptsPolicy(s, s.Target(k.name)) {
        PolicedSame(u, k, lab);
        ReportedSame(s, k, "", later);
      } else {
        ReportedSame(s, k, "NetworkPolicyError", later);
      }
    } else {
      ReportedSame(s, k, "QuotaError", later);
    }
    OpeningTimeless(s, k, lab, later);
  }

  lemma OpeningTimeless(s: Store, k: Key, lab: ClusterLab, later: int)
    ensures C.Opening(s.(now := later), k, lab) == C.Opening(s, k, lab)
  {
  }

  /** What a pass sets before its first call is set in what it writes last. */
  lemma OpeningSettles(s: Store, k: Key, lab: ClusterLab, refused: string)
    requires !lab.spec.ttl.BadTtl?
    ensures var status := Report(s, k, lab, C.Opening(s, k, lab), refused);
            C.Opening(s, k, lab.(status := status)) == status
  {
    hide C.Counted, Conditions.Set;
    CountedKeeps(s, k, C.Opening(s, k, lab));
  }

  lemma CountedKeeps(s: Store, k: Key, mem: ClusterStatus)
    ensures var c := C.Counted(s, k, mem, false); c.target == mem.target && c.expiresAt == mem.expiresAt
  {
  }

  lemma Stored(s: Store, k: Key, lab: ClusterLab, mem: ClusterStatus, refused: string)
    requires k in s.labs
    ensures var t := Reported(s, k, lab, mem, refused);
            && k in t.labs && t.labs[k] == lab.(status := Report(s, k, lab, mem, refused))
            && t.insts == s.insts && t.names == s.names && t.now == s.now
  {
    hide Report;
  }

  /** The first pass gets everything done. */
  lemma ReportGetsDone(s: Store, k: Key, lab: ClusterLab, refused: string)
    requires k in s.labs && !lab.spec.ttl.BadTtl?
    ensures ReportDone(Reported(s, k, lab, C.Opening(s, k, lab), refused), k, refused)
  {
    var mem := C.Opening(s, k, lab);
    var t := Reported(s, k, lab, mem, refused);
    var stored := lab.(status := Report(s, k, lab, mem, refused));
    hide Reported, C.Opening, C.Counted, C.RunningStatus, C.FailedStatus;
    Stored(s, k, lab, mem, refused);
    OpeningSettles(s, k, lab, refused);
    OpeningSpaceless(s, t, k, stored);
    forall later
      ensures Report(t.(now := later), k, stored, stored.status, refused) == stored.status
    {
      if refused != "" {
        FailedSettles(mem, refused, s.now, later);
      } else {
        CountSettles(s, t.(now := later), k, mem, lab.spec.network);
        RunningSettles(C.Counted(s, k, mem, false), s.Target(k.name), lab.spec.network, s.now, later);
      }
    }
  }

  lemma CountSettles(s: Store, t: Store, k: Key, mem: ClusterStatus, network: string)
    requires t.insts == s.insts
    ensures var once := C.RunningStatus(C.Counted(s, k, mem, false), s.Target(k.name), network, s.now);
            C.Counted(t, k, once, false) == once
  {
    assert Members(t, k) == Members(s, k) && RunningMembers(t, k) == RunningMembers(s, k);
  }

  lemma PolicyGetsDone(s: Store, k: Key, lab: ClusterLab)
    requires k in s.labs && LabelsDone(s, k, lab) && HardDone(s, k, lab) && !lab.spec.ttl.BadTtl?
    ensures AllDone(FromNetwork(s, k, lab, C.Opening(s, k, lab)), k)
  {
    var n := s.Target(k.name);
    hide ReportDone, SpaceLabels, Hard, PolicyFor, Report, C.Opening;
    if AcceptsPolicy(s, n) {
      var t := Policed(s, k, lab);
      OpeningSpaceless(s, t, k, lab);
      ReportGetsDone(t, k, lab, "");
    } else {
      ReportGetsDone(s, k, lab, "NetworkPolicyError");
    }
  }

  lemma OpeningSpaceless(s: Store, t: Store, k: Key, lab: ClusterLab)
    requires t.names == s.names
    ensures C.Opening(t, k, lab) == C.Opening(s, k, lab)
  {
  }

  lemma HardGetsDone(s: Store, k: Key, lab: ClusterLab)
    requires k in s.labs && LabelsDone(s, k, lab) && !lab.spec.ttl.BadTtl?
    ensures AllDone(FromQuota(s, k, lab, C.Opening(s, k, lab)), k)
  {
    var n := s.Target(k.name);
    hide ReportDone, SpaceLabels, Hard, Report, C.Opening, FromNetwork;
    if AcceptsHard(s, n) {
      var t := Limited(s, k, lab);
      HardSettles(s.spaces[n].hard, lab.spec.quota);
      OpeningSpaceless(s, t, k, lab);
      PolicyGetsDone(t, k, lab);
    } else {
      ReportGetsDone(s, k, lab, "QuotaError");
    }
  }

  lemma AllGetsDone(s: Store, k: Key, lab: ClusterLab)
    requires k in s.labs && !lab.spec.ttl.BadTtl?
    ensures AllDone(Provisioned(s, k, lab, C.Opening(s, k, lab)), k)
  {
    hide AllDone, SpaceLabels, C.Opening, FromQuota;
    var n := s.Target(k.name);
    var t := Spaced(s, k, lab);
    LabelsSettle(if n in s.spaces then s.spaces[n].labels else map[], k.name, lab.labels);
    OpeningSpaceless(s, t, k, lab);
    HardGetsDone(t, k, lab);
  }

  // ----- passes come to rest ----------------------------------------------------------------

  lemma DoneIsSteady(s: Store, k: Key)
    requires AllDone(s, k) && !s.labs[k].deleting && s.labs[k].finalizer
    ensures Steady(s, k)
  {
    hide Pass, Provisioned, Perform, LabelsDone, HardDone, PolicyDone, ReportDone;
    forall later | later >= s.now && !Expired(s.labs[k], later)
      ensures Pass(s.(now := later), k) == s.(now := later)
    {
      LivePass(s.(now := later), k);
      DoneStays(s, k, later);
    }
  }

  /** Four calls at most to the end of a deletion pass; it acts on the namespace or lets the lab go. */
  lemma DeletingPass(s: Store, k: Key)
    requires k in s.labs && s.labs[k].deleting && s.labs[k].finalizer
    ensures var n := C.CleanupTarget(s, k, s.labs[k]);
            Pass(s, k) == if n in s.spaces then Perform(s, DeleteSpace(s, n)) else Perform(s, DropLab(k))
  {
    hide C.Finish, C.CleanupTarget, Pass;
    var lab := s.labs[k];
    var n := C.CleanupTarget(s, k, lab);
    GetPass(s, k);
    Unfold(s, k, C.DeleteTarget(lab), NONE, 1);
    var t := Perform(s, DeleteSpace(s, n));
    CleanupTimeless(s, t, k, lab);
    Unfold(t, k, C.CheckTarget(lab), NONE, 2);
    if n !in s.spaces {
      Unfold(t, k, C.RemoveFinalizer(lab), NONE, 3);
    }
  }

  lemma CleanupTimeless(s: Store, t: Store, k: Key, lab: ClusterLab)
    requires t.names == s.names
    ensures C.CleanupTarget(t, k, lab) == C.CleanupTarget(s, k, lab)
  {
  }

  lemma AddsFinalizer(s: Store, k: Key)
    requires k in s.labs && !s.labs[k].deleting && !s.labs[k].finalizer
    ensures Pass(s, k) == Perform(s, PutLab(k, s.labs[k].(finalizer := true)))
  {
    hide C.Finish, Pass;
    GetPass(s, k);
    Unfold(s, k, C.AddFinalizer(s.labs[k]), NONE, 1);
  }

  lemma NothingStored(s: Store, k: Key)
    requires k !in s.labs || (s.labs[k].deleting && !s.labs[k].finalizer)
    ensures Pass(s, k) == s
  {
    hide C.Finish, C.Call;
    Unfold(s, k, C.Get, NONE, 0);
    NothingToGet(s, k);
  }

  lemma NothingToGet(s: Store, k: Key)
    requires k !in s.labs || (s.labs[k].deleting && !s.labs[k].finalizer)
    ensures C.Call(s, k, C.Get, false) == C.Outcome(Nothing, C.Done(0))
  {
  }

  /** A pass over a live ClusterLab with the finalizer that is not steady. */
  lemma UnsteadyPass(s: Store, k: Key)
    requires k in s.labs && !s.labs[k].deleting && s.labs[k].finalizer
    requires !Expired(s.labs[k], s.now)
    ensures Pass(s, k) == s || Work(Pass(s, k), k) == 2
  {
    var lab := s.labs[k];
    LivePass(s, k);
    if !lab.spec.ttl.BadTtl? {
      AllGetsDone(s, k, lab);
      KeepsFlags(s, k, lab, C.Opening(s, k, lab));
      hide Pass, Provisioned, C.Opening, AllDone, Steady;
      DoneIsSteady(Pass(s, k), k);
    }
  }

  lemma KeepsFlags(s: Store, k: Key, lab: ClusterLab, mem: ClusterStatus)
    requires k in s.labs
    ensures var t := Provisioned(s, k, lab, mem);
            k in t.labs && t.labs[k].deleting == lab.deleting && t.labs[k].finalizer == lab.finalizer
  {
    hide Report, SpaceLabels, Hard, PolicyFor;
  }

  /** A pass that meets no failure changes nothing, or leaves less to do. */
  lemma PassSettles(s: Store, k: Key)
    ensures Pass(s, k) == s || Work(Pass(s, k), k) < Work(s, k)
  {
    hide Pass, Steady, Perform;
    if k !in s.labs || (s.labs[k].deleting && !s.labs[k].finalizer) {
      NothingStored(s, k);
    } else if s.labs[k].deleting {
      DeletingPass(s, k);
      DeletionWorks(s, k);
    } else if !s.labs[k].finalizer {
      AddsFinalizer(s, k);
      FinalizerWorks(s, k);
    } else if Expired(s.labs[k], s.now) {
      LivePass(s, k);
      ExpiryWorks(s, k);
    } else if Steady(s, k) {
      SteadyNow(s, k);
    } else {
      UnsteadyPass(s, k);
    }
  }

  lemma SteadyNow(s: Store, k: Key)
    requires Steady(s, k) && !Expired(s.labs[k], s.now)
    ensures Pass(s, k) == s
  {
    hide Pass;
    assert s.(now := s.now) == s;
  }

  lemma DeletionWorks(s: Store, k: Key)
    requires k in s.labs && s.labs[k].deleting && s.labs[k].finalizer
    ensures var n := C.CleanupTarget(s, k, s.labs[k]);
            var t := if n in s.spaces then Perform(s, DeleteSpace(s, n)) else Perform(s, DropLab(k));
            t == s || Work(t, k) < Work(s, k)
  {
    hide Steady;
    var n := C.CleanupTarget(s, k, s.labs[k]);
    if n in s.spaces && s.spaces[n].terminating {
      assert s.spaces[n := s.spaces[n]] == s.spaces;
    }
  }

  lemma FinalizerWorks(s: Store, k: Key)
    requires k in s.labs && !s.labs[k].deleting && !s.labs[k].finalizer
    ensures Work(Perform(s, PutLab(k, s.labs[k].(finalizer := true))), k) < Work(s, k)
  {
    hide Steady;
  }

  lemma ExpiryWorks(s: Store, k: Key)
    requires k in s.labs && !s.labs[k].deleting && s.labs[k].finalizer && !s.labs[k].spec.ttl.BadTtl?
    ensures Work(Perform(s, DeleteLab(s, k)), k) < Work(s, k)
  {
    hide Steady;
  }

  /** Time alone makes no work. */
  lemma TimeSettles(s: Store, k: Key, later: int)
    requires later >= s.now
    ensures Work(s.(now := later), k) <= Work(s, k)
  {
    hide Pass;
    if k in s.labs && Steady(s, k) {
      var u := s.(now := later);
      forall last | last >= u.now && !Expired(u.labs[k], last)
        ensures Pass(u.(now := last), k) == u.(now := last)
      {
        assert u.(now := last) == s.(now := last);
      }
    }
  }

  /** Passes with the clock moved on before each; the result counts those that change something. */
  ghost function Changing(s: Store, k: Key, waits: seq<nat>): nat
    decreases |waits|
  {
    if waits == [] then 0
    else
      var u := s.(now := s.now + waits[0]);
      (if Pass(u, k) == u then 0 else 1) + Changing(Pass(u, k), k, waits[1..])
  }

  /** However many passes run, and whenever: at most four of them change anything. */
  lemma {:induction false} PassesSettle(s: Store, k: Key, waits: seq<nat>)
    ensures Changing(s, k, waits) <= Work(s, k) <= 4
    decreases |waits|
  {
    hide Pass, Work;
    WorkBound(s, k);
    if waits != [] {
      var u := s.(now := s.now + waits[0]);
      TimeSettles(s, k, u.now);
      PassSettles(u, k);
      PassesSettle(Pass(u, k), k, waits[1..]);
    }
  }

  lemma WorkBound(s: Store, k: Key)
    ensures Work(s, k) <= 4
  {
  }
}
