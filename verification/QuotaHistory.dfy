/**
 What quota, labels and policy of a target namespace remember. Every pass lays its spec over
 what is there: a limit or a label that a later spec drops stays. So in every run, each hard
 limit is the most recent positive one applied for its resource since the namespace was
 created, each propagated label the most recent value, the policy that of the most recent
 network mode, and the identity labels are never overwritten.
 */
module QuotaHistory {
  import opened Prelude
  import opened LabStore
  import opened LabSystem
  import C = ClusterLabController
  import I = InstanceLabController

  /** A step of a ClusterLab pass that touched labels, quota or policy of a namespace. */
  datatype Event =
    | Labelled(name: string, labels: map<string, string>)
    | Limited(quota: QuotaSpec)
    | Policed(network: string)

  datatype Mark = Mark(labels: map<string, string>, hard: Option<map<Resource, int>>, policy: Option<Policy>)

  const BLANK := Mark(map[], None, None)

  /** One event on top of what was there. */
  function Lay(was: Mark, e: Event): Mark
  {
    match e
    case Labelled(name, labels) => was.(labels := SpaceLabels(was.labels, name, labels))
    case Limited(quota) => was.(hard := Some(Hard(was.hard, quota)))
    case Policed(network) => was.(policy := Some(PolicyFor(network)))
  }

  /** What a history leaves, from nothing. */
  function Replay(history: seq<Event>): Mark
    decreases |history|
  {
    if history == [] then BLANK
    else Lay(Replay(history[..|history| - 1]), history[|history| - 1])
  }

  // ----- the history of a run ----------------------------------------------------------

  /** The event an action makes in namespace `n`, if any. */
  ghost function EventOf(s: System, a: Action, n: string): Option<Event>
  {
    if !a.CallCluster? || a.fault || a.k !in s.cp || s.st.Target(a.k.name) != n then None
    else
      match s.cp[a.k]
      case ApplyNamespace(lab, _, _) => Some(Labelled(a.k.name, lab.labels))
      case ApplyQuota(lab, _, _) => if AcceptsHard(s.st, n) then Some(Limited(lab.spec.quota)) else None
      case ApplyNetwork(lab, _, _) => if AcceptsPolicy(s.st, n) then Some(Policed(lab.spec.network)) else None
      case _ => None
  }

  ghost function Extend(history: seq<Event>, e: Option<Event>): seq<Event>
  {
    if e.Some? then history + [e.value] else history
  }

  /** The events in `n` since it was last created, given those before the run. */
  ghost function History(s: System, acts: seq<Action>, n: string, before: seq<Event>): seq<Event>
    decreases |acts|
  {
    if acts == [] then before
    else
      var t := Do(s, acts[0]);
      History(t, acts[1..], n, if n in t.st.spaces then Extend(before, EventOf(s, acts[0], n)) else [])
  }

  function MarkIn(space: Namespace): Mark { Mark(space.labels, space.hard, space.policy) }

  ghost function MarkOf(s: Store, n: string): Mark
  {
    if n in s.spaces then MarkIn(s.spaces[n]) else BLANK
  }

  /** A write that leaves labels, quota and policy of `n` alone, unless it drops the namespace. */
  ghost predicate LeavesMark(s: Store, w: Write, n: string)
  {
    w.PutSpace? && w.n == n ==> MarkIn(w.space) == MarkOf(s, n) && n in s.spaces
  }

  lemma OutsideLeavesMark(s: Store, a: Action, n: string)
    ensures LeavesMark(s, OutsideWrite(s, a), n)
  {
  }

  lemma InstLeavesMark(s: Store, i: Key, p: I.Pass, fault: bool, n: string)
    ensures LeavesMark(s, I.Call(s, i, p, fault).write, n)
  {
  }

  /** A call of a ClusterLab pass lays exactly its event. */
  lemma ClusterLays(s: System, k: Key, fault: bool, n: string)
    requires k in s.cp
    ensures var e := EventOf(s, CallCluster(k, fault), n);
            var w := C.Call(s.st, k, s.cp[k], fault).write;
            if e.None? then LeavesMark(s.st, w, n)
            else
              && w.PutSpace? && w.n == n && MarkIn(w.space) == Lay(MarkOf(s.st, n), e.value)
              && (n in s.st.spaces || e.value.Labelled?)
  {
    hide SpaceLabels, Hard, PolicyFor, C.Dispatch, C.RunningStatus, C.FailedStatus, C.Counted;
    match s.cp[k] {
      case DeleteTarget(_) =>
      case ApplyNamespace(_, _, _) =>
      case ApplyQuota(_, _, _) =>
      case ApplyNetwork(_, _, _) =>
      case _ =>
    }
  }

  lemma PerformMarks(s: Store, w: Write, n: string)
    requires n in Perform(s, w).spaces
    ensures var t := Perform(s, w);
            if w.PutSpace? && w.n == n then MarkOf(t, n) == MarkIn(w.space)
            else n in s.spaces && MarkOf(t, n) == MarkOf(s, n)
  {
  }

  lemma WriteLays(s: System, a: Action, n: string)
    requires n in Do(s, a).st.spaces
    ensures var t := Do(s, a).st;
            var e := EventOf(s, a, n);
            && MarkOf(t, n) == (if e.Some? then Lay(MarkOf(s.st, n), e.value) else MarkOf(s.st, n))
            && (n in s.st.spaces || (e.Some? && e.value.Labelled?))
  {
    hide C.Call, I.Call, OutsideWrite, Do, Lay, Perform;
    DoPerforms(s, a);
    PerformMarks(s.st, WriteOf(s, a), n);
    OutsideLeavesMark(s.st, a, n);
    match a {
      case CallCluster(k, fault) => if k in s.cp { ClusterLays(s, k, fault, n); }
      case CallInst(i, fault) => if i in s.ip { InstLeavesMark(s.st, i, s.ip[i], fault, n); }
      case _ =>
    }
  }

  lemma ReplayExtend(history: seq<Event>, e: Option<Event>)
    ensures Replay(Extend(history, e)) == if e.Some? then Lay(Replay(history), e.value) else Replay(history)
    ensures LastName(Extend(history, e)) ==
            if e.Some? && e.value.Labelled? then Some(e.value.name) else LastName(history)
  {
    hide Lay;
    if e.Some? {
      assert (history + [e.value])[..|history|] == history;
    }
  }

  /** Labels, quota and policy of a namespace are its history laid out. */
  lemma {:induction false} RunReplays(s: System, acts: seq<Action>, n: string, before: seq<Event>)
    requires MarkOf(s.st, n) == Replay(before) && (n in s.st.spaces ==> LastName(before).Some?)
    ensures var t := Run(s, acts).st;
            var history := History(s, acts, n, before);
            MarkOf(t, n) == Replay(history) && (n in t.spaces ==> LastName(history).Some?)
    decreases |acts|
  {
    hide Do, Lay, EventOf, Replay, LastName;
    if acts != [] {
      var t := Do(s, acts[0]);
      if n in t.st.spaces {
        WriteLays(s, acts[0], n);
        ReplayExtend(before, EventOf(s, acts[0], n));
        RunReplays(t, acts[1..], n, Extend(before, EventOf(s, acts[0], n)));
      } else {
        ReplayNone();
        RunReplays(t, acts[1..], n, []);
      }
    }
  }

  lemma ReplayNone()
    ensures Replay([]) == BLANK
  {
  }

  // ----- what a history leaves -------------------------------------------------------------

  /** The limit a quota spec sets for a resource; zero or less sets none. */
  function LimitOf(q: QuotaSpec, resource: Resource): int
  {
    match resource
    case LimitsCpu => q.cpu
    case RequestsCpu => q.cpu
    case LimitsMemory => q.memory
    case RequestsMemory => q.memory
    case Pods => q.pods
    case Services => q.services
    case LimitsEphemeralStorage => q.storage
  }

  /** The most recent positive limit for a resource. */
  function LatestLimit(history: seq<Event>, resource: Resource): Option<int>
    decreases |history|
  {
    if history == [] then None
    else
      var last := history[|history| - 1];
      if last.Limited? && LimitOf(last.quota, resource) > 0 then Some(LimitOf(last.quota, resource))
      else LatestLimit(history[..|history| - 1], resource)
  }

  /** The most recent network mode. */
  function LatestMode(history: seq<Event>): Option<string>
    decreases |history|
  {
    if history == [] then None
    else
      var last := history[|history| - 1];
      if last.Policed? then Some(last.network) else LatestMode(history[..|history| - 1])
  }

  /** The most recent value of a label that is propagated. */
  function LatestLabel(history: seq<Event>, key: string): Option<string>
    decreases |history|
  {
    if history == [] then None
    else
      var last := history[|history| - 1];
      if last.Labelled? && key in last.labels then Some(last.labels[key])
      else LatestLabel(history[..|history| - 1], key)
  }

  /** The ClusterLab that labelled the namespace last. */
  function LastName(history: seq<Event>): Option<string>
    decreases |history|
  {
    if history == [] then None
    else
      var last := history[|history| - 1];
      if last.Labelled? then Some(last.name) else LastName(history[..|history| - 1])
  }

  function Find<K, V>(m: map<K, V>, key: K): Option<V>
  {
    if key in m then Some(m[key]) else None
  }

  lemma AskedIs(q: QuotaSpec, resource: Resource)
    ensures Find(Asked(q), resource) == if LimitOf(q, resource) > 0 then Some(LimitOf(q, resource)) else None
  {
    hide Positive, Find;
    var r := resource;
    var a1 := Positive(LimitsCpu, q.cpu);
    var a2 := a1 + Positive(RequestsCpu, q.cpu);
    var a3 := a2 + Positive(LimitsMemory, q.memory);
    var a4 := a3 + Positive(RequestsMemory, q.memory);
    var a5 := a4 + Positive(Pods, q.pods);
    var a6 := a5 + Positive(Services, q.services);
    FindNone(r);
    FindPositive(map[], LimitsCpu, q.cpu, r);
    assert map[] + a1 == a1;
    FindPositive(a1, RequestsCpu, q.cpu, r);
    FindPositive(a2, LimitsMemory, q.memory, r);
    FindPositive(a3, RequestsMemory, q.memory, r);
    FindPositive(a4, Pods, q.pods, r);
    FindPositive(a5, Services, q.services, r);
    FindPositive(a6, LimitsEphemeralStorage, q.storage, r);
  }

  lemma FindNone(r: Resource)
    ensures Find<Resource, int>(map[], r) == None
  {
  }

  lemma FindPositive(m: map<Resource, int>, resource: Resource, limit: int, r: Resource)
    ensures Find(m + Positive(resource, limit), r) == if r == resource && limit > 0 then Some(limit) else Find(m, r)
  {
  }

  /** A hard limit is the most recent positive one, CPU and memory for limits and requests alike. */
  lemma {:induction false} HardIsLatest(history: seq<Event>, resource: Resource)
    ensures var hard := Replay(history).hard;
            LatestLimit(history, resource) == if hard.Some? then Find(hard.value, resource) else None
    decreases |history|
  {
    hide LimitOf, Asked, SpaceLabels;
    if history != [] {
      var last := history[|history| - 1];
      HardIsLatest(history[..|history| - 1], resource);
      if last.Limited? { AskedIs(last.quota, resource); }
    }
  }

  lemma {:induction false} PolicyIsLatest(history: seq<Event>)
    ensures Replay(history).policy ==
            if LatestMode(history).Some? then Some(PolicyFor(LatestMode(history).value)) else None
    decreases |history|
  {
    hide PolicyFor, Hard, SpaceLabels;
    if history != [] {
      PolicyIsLatest(history[..|history| - 1]);
    }
  }

  /** Whether a policy lets a client in, from a Pod of the same namespace or from elsewhere. */
  predicate Admits(p: Policy, fromSame: bool)
  {
    p == AllowAll || (p == AllowNamespace && fromSame)
  }

  /** `s` spells the lower-case word, in whatever case. */
  predicate Spells(s: string, word: string)
  {
    |s| == |word| && forall j :: 0 <= j < |s| ==>
      s[j] == word[j] || ('A' <= s[j] <= 'Z' && s[j] as int + 32 == word[j] as int)
  }

  /** Mode "external" lets everybody in, "internal" the own namespace, every other mode nobody. */
  lemma PolicyMeans(network: string, fromSame: bool)
    ensures Admits(PolicyFor(network), fromSame) <==>
            Spells(network, "external") || (Spells(network, "internal") && fromSame)
  {
    SpellsLower(network, "external");
    SpellsLower(network, "internal");
    assert "external"[0] == 'e' && "internal"[0] == 'i';
  }

  lemma SpellsLower(s: string, word: string)
    requires forall j :: 0 <= j < |word| ==> 'a' <= word[j] <= 'z'
    ensures ToLower(s) == word <==> Spells(s, word)
  {
    if Spells(s, word) {
      forall j | 0 <= j < |s| ensures ToLower(s)[j] == word[j] {
      }
    }
    if ToLower(s) == word {
      forall j | 0 <= j < |s|
        ensures s[j] == word[j] || ('A' <= s[j] <= 'Z' && s[j] as int + 32 == word[j] as int)
      {
        assert ToLower(s)[j] == word[j];
      }
    }
  }

  lemma IdentityNotPropagated()
    ensures !Propagates(MANAGED_BY) && !Propagates(CLUSTER_LABEL) && MANAGED_BY != CLUSTER_LABEL
  {
    assert MANAGED_BY[0] == 'a' && "student_"[0] == 's' && "lab_"[0] == 'l' && "session_"[0] == 's';
    assert CLUSTER_LABEL[0] == 'l' && CLUSTER_LABEL[3] == '.' && "lab_"[3] == '_';
  }

  /** A propagated label is the most recent value; no other label but the identity ones is ever set. */
  lemma {:induction false} LabelIsLatest(history: seq<Event>, key: string)
    requires key != MANAGED_BY && key != CLUSTER_LABEL
    ensures Find(Replay(history).labels, key) == if Propagates(key) then LatestLabel(history, key) else None
    decreases |history|
  {
    hide Propagates, Hard;
    if history != [] {
      LabelIsLatest(history[..|history| - 1], key);
    }
  }

  /** The identity labels say who manages the namespace and for whom; no user label gets over them. */
  lemma {:induction false} IdentityKept(history: seq<Event>)
    requires LastName(history).Some?
    ensures Find(Replay(history).labels, MANAGED_BY) == Some(MANAGER)
    ensures Find(Replay(history).labels, CLUSTER_LABEL) == LastName(history)
    decreases |history|
  {
    IdentityNotPropagated();
    hide Propagates, Hard;
    var last := history[|history| - 1];
    if !last.Labelled? {
      IdentityKept(history[..|history| - 1]);
    }
  }

  lemma PropagatesTells(key: string)
    ensures Propagates(key) <==> "student_" <= key || "lab_" <= key || "session_" <= key
  {
  }

  /** In every run: limits, policy, propagated labels and identity of a target namespace. */
  lemma NamespaceRemembers(s: System, acts: seq<Action>, n: string)
    requires Initial(s) && n in Run(s, acts).st.spaces
    ensures var space := Run(s, acts).st.spaces[n];
            var history := History(s, acts, n, []);
            && (forall r: Resource :: (if space.hard.Some? then Find(space.hard.value, r) else None)
                                      == LatestLimit(history, r))
            && space.policy == (if LatestMode(history).Some? then Some(PolicyFor(LatestMode(history).value)) else None)
            && (forall key :: key != "app.kubernetes.io/managed-by" && key != "lab.devops.toiyeuptit.com/clusterlab" ==>
                  Find(space.labels, key) ==
                  if "student_" <= key || "lab_" <= key || "session_" <= key then LatestLabel(history, key) else None)
            && Find(space.labels, "app.kubernetes.io/managed-by") == Some("typ-lab-operator")
            && LastName(history).Some?
            && Find(space.labels, "lab.devops.toiyeuptit.com/clusterlab") == LastName(history)
  {
    hide Run, History, Propagates, Replay, PolicyFor;
    ReplayNone();
    RunReplays(s, acts, n, []);
    var space := Run(s, acts).st.spaces[n];
    var history := History(s, acts, n, []);
    forall r: Resource
      ensures (if space.hard.Some? then Find(space.hard.value, r) else None) == LatestLimit(history, r)
    {
      HardIsLatest(history, r);
    }
    forall key | key != MANAGED_BY && key != CLUSTER_LABEL
      ensures Find(space.labels, key) ==
              if "student_" <= key || "lab_" <= key || "session_" <= key then LatestLabel(history, key) else None
    {
      LabelIsLatest(history, key);
      PropagatesTells(key);
    }
    IdentityKept(history);
    PolicyIsLatest(history);
  }
}
