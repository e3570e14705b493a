/**
 Where the code falls short of what it is for: for each hypothesis of the results about the lab
 protocol, a run from the empty cluster, or from any state of the kind described, in which the
 result fails for want of it. Where one pass decides, the run is an instance of a lemma that says
 for every store and every way the calls can fail whether it does.
 */
module Counterexamples {
  import opened Prelude
  import Conditions
  import opened LabStore
  import opened LabSystem
  import opened NoResidue
  import opened Passes
  import C = ClusterLabController
  import I = InstanceLabController
  import CS = ClusterSettling
  import IS = InstanceSettling
  import CR = ClusterLabReconciler
  import CP = CleanupPass
  import D = Drain
  import G = GatePass
  import Counters

  const LAB := Key("student", "lab")
  const VM := Key("student", "vm")
  const SPEC := ClusterSpec(NoTtl, "isolate", QuotaSpec(0, 0, 0, 0, 0))
  const ISPEC := InstanceSpec("lab", false, [])

  /** The empty cluster, under any naming. */
  function Empty(names: Names): System
  {
    System(Store(names, map[], map[], map[], {}, map[], 0, 0), map[], map[])
  }

  /** One ClusterLab and one InstanceLab of it, with nothing in flight. */
  ghost predicate Pair(s: System, finalizer: bool, ifinalizer: bool)
  {
    && s.cp == map[] && s.ip == map[]
    && s.st.labs.Keys == {LAB} && s.st.insts.Keys == {VM}
    && (var lab := s.st.labs[LAB];
        !lab.deleting && lab.finalizer == finalizer && lab.spec == SPEC && TargetRight(s.st, LAB, lab.status))
    && (var inst := s.st.insts[VM];
        !inst.deleting && inst.finalizer == ifinalizer && inst.spec == ISPEC && inst.owner.None?)
  }

  /** The ClusterLab runs; its namespace is active, equipped and empty. */
  ghost predicate Up(s: System, ifinalizer: bool)
  {
    && Pair(s, true, ifinalizer)
    && s.st.labs[LAB].status.phase == Running && s.st.labs[LAB].status.target == s.st.Target("lab")
    && s.st.spaces.Keys == {s.st.Target("lab")}
    && (var space := s.st.spaces[s.st.Target("lab")];
        !space.terminating && space.hard.Some? && space.policy.Some? && space.objects == map[])
  }

  ghost predicate Serving(s: System) { Up(s, true) }

  lemma Creates(names: Names)
    ensures var t := Run(Empty(names), [CreateLab(LAB, SPEC, map[]), CreateInst(VM, ISPEC)]);
            Pair(t, false, false) && t.st.spaces == map[] && t.st.names == names
  {
    var s := Empty(names);
    var a, b := CreateLab(LAB, SPEC, map[]), CreateInst(VM, ISPEC);
    assert [a, b] == [a] + [b] && [b] == [b] + [];
    RunCons(s, a, [b]);
    RunCons(Do(s, a), b, []);
  }

  /** A pass of the queue that meets no failure. */
  lemma LabPass(s: System, k: Key) returns (acts: seq<Action>)
    requires k !in s.cp
    ensures var f := CS.Pass(s.st.(dirty := s.st.dirty - {k}), k);
            var t := Run(s, acts);
            && t.st == f.(dirty := t.st.dirty, timers := t.st.timers)
            && t.cp == s.cp - {k} && t.ip == s.ip
  {
    hide Run, C.Finish;
    acts := ReconcileIsRun(s, k, CS.NONE);
    var f := C.Finish(s.st.(dirty := s.st.dirty - {k}), k, C.Get, CS.NONE, 0);
    SettleQueue(s.(st := f.st), k, C.Outcome(Nothing, f.verdict));
  }

  lemma InstPass(s: System, i: Key, faults: nat -> bool) returns (acts: seq<Action>)
    requires i !in s.ip
    ensures Run(s, acts) == s.(st := I.Finish(s.st, i, I.Get, faults, 0).st, ip := s.ip - {i})
  {
    hide Run, I.Finish;
    acts := InstReconcileIsRun(s, i, faults);
  }

  /** The first provisioning pass: the namespace is there, equipped, and the phase is Running. */
  lemma ProvisionsFresh(s: Store, k: Key)
    requires k in s.labs && !s.labs[k].deleting && s.labs[k].finalizer && s.labs[k].spec.ttl.NoTtl?
    requires s.Target(k.name) !in s.spaces && TargetRight(s, k, s.labs[k].status)
    ensures var n := s.Target(k.name);
            var t := CS.Pass(s, k);
            && n in t.spaces && t.spaces == s.spaces[n := t.spaces[n]]
            && !t.spaces[n].terminating && t.spaces[n].hard.Some? && t.spaces[n].policy.Some?
            && t.spaces[n].objects == map[]
            && k in t.labs && t.labs == s.labs[k := t.labs[k]] && t.insts == s.insts && t.names == s.names
            && t.now == s.now
            && t.labs[k] == s.labs[k].(status := t.labs[k].status)
            && t.labs[k].status.phase == Running && t.labs[k].status.target == n
  {
    hide CS.Pass, CS.FromQuota, CS.Reported, C.Opening, SpaceLabels, Hard, PolicyFor;
    var lab := s.labs[k];
    var n := s.Target(k.name);
    CS.LivePass(s, k);
    var s1 := CS.Spaced(s, k, lab);
    hide Perform;
    var t := EquipsFresh(s1, k, lab, C.Opening(s, k, lab));
    OpeningTarget(s, k, lab);
    ReportsRunning(t, k, lab, C.Opening(s, k, lab));
    assert s1.spaces[n := t.spaces[n]] == s.spaces[n := t.spaces[n]];
  }

  /** Quota and policy of a fresh namespace are accepted. */
  lemma EquipsFresh(s: Store, k: Key, lab: ClusterLab, mem: ClusterStatus) returns (t: Store)
    requires s.Target(k.name) in s.spaces && !s.spaces[s.Target(k.name)].terminating
    ensures CS.FromQuota(s, k, lab, mem) == CS.Reported(t, k, lab, mem, "")
    ensures var n := s.Target(k.name);
            && n in t.spaces && t == s.(spaces := s.spaces[n := t.spaces[n]])
            && t.spaces[n].hard.Some? && t.spaces[n].policy.Some?
            && !t.spaces[n].terminating && t.spaces[n].objects == s.spaces[n].objects
  {
    hide CS.Reported, SpaceLabels, Hard, PolicyFor;
    t := CS.Policed(CS.Limited(s, k, lab), k, lab);
  }

  lemma OpeningTarget(s: Store, k: Key, lab: ClusterLab)
    requires TargetRight(s, k, lab.status)
    ensures C.Opening(s, k, lab).target == s.Target(k.name)
  {
  }

  lemma ReportsRunning(s: Store, k: Key, lab: ClusterLab, mem: ClusterStatus)
    requires k in s.labs && s.labs[k] == lab
    ensures var t := CS.Reported(s, k, lab, mem, "");
            && k in t.labs && t.labs == s.labs[k := t.labs[k]]
            && t == s.(labs := t.labs, dirty := t.dirty)
            && t.labs[k] == lab.(status := t.labs[k].status)
            && t.labs[k].status.phase == Running && t.labs[k].status.target == s.Target(k.name)
  {
    hide Members, RunningMembers, Conditions.Set;
  }

  /** The first pass of the ClusterLab. */
  lemma FirstLabPass(s: System) returns (acts: seq<Action>)
    requires Pair(s, false, false)
    ensures var t := Run(s, acts); Pair(t, true, false) && t.st.spaces == s.st.spaces && t.st.names == s.st.names
  {
    hide Run, CS.Pass;
    acts := LabPass(s, LAB);
    CS.AddsFinalizer(s.st.(dirty := s.st.dirty - {LAB}), LAB);
  }

  lemma SecondLabPass(s: System) returns (acts: seq<Action>)
    requires Pair(s, true, false) && s.st.spaces == map[]
    ensures var t := Run(s, acts); Up(t, false) && t.st.names == s.st.names
  {
    hide Run, CS.Pass;
    acts := LabPass(s, LAB);
    ProvisionsFresh(s.st.(dirty := s.st.dirty - {LAB}), LAB);
  }

  lemma FirstInstPass(s: System) returns (acts: seq<Action>)
    requires Up(s, false)
    ensures var t := Run(s, acts); Up(t, true) && t.st.names == s.st.names
  {
    hide Run, I.Finish;
    acts := InstPass(s, VM, IS.NONE);
    IS.AddsFinalizer(s.st, VM);
  }

  /** From nothing to a serving ClusterLab. */
  lemma Serve(names: Names) returns (acts: seq<Action>)
    ensures Serving(Run(Empty(names), acts))
    ensures Run(Empty(names), acts).st.names == names
  {
    hide Run, Up, Pair;
    var s := Empty(names);
    var a1 := [CreateLab(LAB, SPEC, map[]), CreateInst(VM, ISPEC)];
    Creates(names);
    var s1 := Run(s, a1);
    var a2 := FirstLabPass(s1);
    var s2 := Run(s1, a2);
    var a3 := SecondLabPass(s2);
    var s3 := Run(s2, a3);
    var a4 := FirstInstPass(s3);
    acts := a1 + (a2 + (a3 + a4));
    RunAppend(s, a1, a2 + (a3 + a4));
    RunAppend(s1, a2, a3 + a4);
    RunAppend(s2, a3, a4);
  }

  // ----- the gate, if a ClusterLab name is used again ---------------------------------------

  /** An InstanceLab pass past the gate, about to place the Pod. */
  ghost predicate Holding(s: System, n: string)
  {
    && s.ip.Keys == {VM} && s.ip[VM].Place? && s.ip[VM].stage == 1
    && s.ip[VM].target == n && s.ip[VM].inst.spec == ISPEC
  }

  lemma ReadsParent(s: System)
    requires Serving(s)
    ensures var t := Run(s, [StartInst(VM), CallInst(VM, false), CallInst(VM, false)]);
            && t.st == s.st && t.cp == s.cp
            && t.ip == map[VM := I.SetOwner(s.st.insts[VM], s.st.labs[LAB])]
  {
    D.RunThree(s, StartInst(VM), CallInst(VM, false), CallInst(VM, false));
  }

  lemma PassesGate(s: System, inst: InstanceLab, parent: ClusterLab)
    requires s.ip == map[VM := I.SetOwner(inst, parent)] && inst.spec == ISPEC
    requires parent.status.phase == Running && parent.status.target == s.st.Target("lab")
    ensures var t := Run(s, [CallInst(VM, false), CallInst(VM, false)]);
            && Holding(t, s.st.Target("lab")) && t.cp == s.cp
            && t.st == s.st.(insts := t.st.insts, dirty := t.st.dirty, nextUid := t.st.nextUid)
  {
    var a := CallInst(VM, false);
    assert [a, a] == [a] + [a] && [a] == [a] + [];
    RunCons(s, a, [a]);
    RunCons(Do(s, a), a, []);
    D.RunNone(Do(Do(s, a), a));
    GateOpens(s, inst, parent);
    hide Run, Do;
    SkipsPvc(Do(s, a), s.st.Target("lab"));
  }

  lemma GateOpens(s: System, inst: InstanceLab, parent: ClusterLab)
    requires s.ip == map[VM := I.SetOwner(inst, parent)] && inst.spec == ISPEC
    requires parent.status.phase == Running && parent.status.target == s.st.Target("lab")
    ensures var t := Do(s, CallInst(VM, false));
            && t.ip.Keys == {VM} && t.ip[VM].Place? && t.ip[VM].stage == 0
            && t.ip[VM].target == s.st.Target("lab") && t.ip[VM].inst.spec == ISPEC && t.cp == s.cp
            && t.st == s.st.(insts := t.st.insts, dirty := t.st.dirty, nextUid := t.st.nextUid)
  {
  }

  lemma SkipsPvc(s: System, n: string)
    requires s.ip.Keys == {VM} && s.ip[VM].Place? && s.ip[VM].stage == 0 && s.ip[VM].target == n
    requires s.ip[VM].inst.spec == ISPEC
    ensures var t := Do(s, CallInst(VM, false)); Holding(t, n) && t.cp == s.cp && t.st == s.st
  {
  }

  /** After the same ClusterLab was created again: its second pass has just created the namespace. */
  lemma StartsAgain(s: System) returns (acts: seq<Action>)
    requires Holding(s, s.st.Target("lab")) && s.cp == map[] && LAB !in s.st.labs
    requires s.st.Target("lab") !in s.st.spaces
    ensures var u := Do(s, CreateLab(LAB, SPEC, map[]));
            var t := Run(u, acts);
            var n := s.st.Target("lab");
            && t.ip == s.ip && t.st.names == s.st.names
            && n in t.st.spaces && !t.st.spaces[n].terminating && t.st.spaces[n].hard.None?
  {
    hide Run, CS.Pass, C.Finish;
    var s1 := Do(s, CreateLab(LAB, SPEC, map[]));
    var a2 := LabPass(s1, LAB);
    CS.AddsFinalizer(s1.st.(dirty := s1.st.dirty - {LAB}), LAB);
    var s2 := Run(s1, a2);
    var a3 := [StartCluster(LAB), CallCluster(LAB, false), CallCluster(LAB, false)];
    CreatesSpace(s2);
    acts := a2 + a3;
    RunAppend(s1, a2, a3);
  }

  lemma CreatesSpace(s: System)
    requires s.cp == map[] && LAB in s.st.labs && s.st.Target("lab") !in s.st.spaces
    requires var lab := s.st.labs[LAB]; !lab.deleting && lab.finalizer && lab.spec == SPEC
    ensures var t := Run(s, [StartCluster(LAB), CallCluster(LAB, false), CallCluster(LAB, false)]);
            var n := s.st.Target("lab");
            && t.ip == s.ip && t.st.names == s.st.names && t.st.labs == s.st.labs && t.st.insts == s.st.insts
            && n in t.st.spaces && !t.st.spaces[n].terminating
            && t.st.spaces[n].hard.None? && t.st.spaces[n].objects == map[]
  {
    var c := CallCluster(LAB, false);
    D.RunThree(s, StartCluster(LAB), c, c);
    ReadsLab(s);
    hide Do, Run;
    AppliesSpace(Do(Do(s, StartCluster(LAB)), c));
  }

  lemma ReadsLab(s: System)
    requires s.cp == map[] && LAB in s.st.labs
    requires var lab := s.st.labs[LAB]; !lab.deleting && lab.finalizer && lab.spec == SPEC
    ensures var t := Do(Do(s, StartCluster(LAB)), CallCluster(LAB, false));
            && LAB in t.cp && t.cp[LAB].ApplyNamespace? && t.ip == s.ip
            && t.st == s.st.(dirty := t.st.dirty)
  {
    hide C.Opening;
    var u := Do(s, StartCluster(LAB));
    assert u.cp[LAB] == C.Get;
  }

  lemma AppliesSpace(s: System)
    requires LAB in s.cp && s.cp[LAB].ApplyNamespace? && s.st.Target("lab") !in s.st.spaces
    ensures var t := Do(s, CallCluster(LAB, false));
            var n := s.st.Target("lab");
            && t.ip == s.ip && t.st.names == s.st.names && t.st.labs == s.st.labs && t.st.insts == s.st.insts
            && n in t.st.spaces && !t.st.spaces[n].terminating
            && t.st.spaces[n].hard.None? && t.st.spaces[n].objects == map[]
  {
    hide SpaceLabels;
  }

  lemma PlacesPod(s: System, n: string)
    requires Holding(s, n) && n in s.st.spaces && !s.st.spaces[n].terminating
    ensures var t := Run(s, [CallInst(VM, false)]).st;
            && n in t.spaces && !t.spaces[n].terminating && t.spaces[n].hard == s.st.spaces[n].hard
            && ObjectKey(Pod, s.st.names.child(Pod, "vm")) in t.spaces[n].objects
  {
    assert [CallInst(VM, false)] == [CallInst(VM, false)] + [];
    RunCons(s, CallInst(VM, false), []);
  }

  /**
   The gate is open to passes that read a ClusterLab of the same name before it was deleted: a
   run from the empty cluster that places a Pod in an active namespace without a quota. When the
   name is used again no ClusterLab is stored.
   */
  lemma GateNeedsFreshTargets(names: Names) returns (before: seq<Action>, after: seq<Action>, n: string)
    ensures Run(Empty(names), before).st.labs == map[]
    ensures var t := Run(Empty(names), before + ([CreateLab(LAB, SPEC, map[])] + after)).st;
            && n in t.spaces && !t.spaces[n].terminating
            && t.spaces[n].objects != map[] && t.spaces[n].hard.None?
  {
    hide Run, Serving, D.Gone;
    var s := Empty(names);
    n := names.target("lab");
    var a1 := Serve(names);
    var s1 := Run(s, a1);
    var a2 := ReadsThrough(s1);
    var s2 := Run(s1, a2);
    var a3 := D.Completes(s2, LAB);
    var s3 := Run(s2, a3);
    assert s3.st.labs == map[] && s3.ip == s2.ip && n !in s3.st.spaces by { GoneMeans(s2, s3); }
    assert s3.cp == map[] && s3.st.names == names by { GoneMeans(s2, s3); }
    var a4 := StartsAgain(s3);
    var s4 := Run(Do(s3, CreateLab(LAB, SPEC, map[])), a4);
    PlacesPod(s4, n);
    var a5 := [CallInst(VM, false)];
    before := a1 + (a2 + a3);
    after := a4 + a5;
    RunAppend(s, a1, a2 + a3);
    RunAppend(s1, a2, a3);
    RunAppend(s, before, [CreateLab(LAB, SPEC, map[])] + after);
    RunCons(s3, CreateLab(LAB, SPEC, map[]), after);
    RunAppend(Do(s3, CreateLab(LAB, SPEC, map[])), a4, a5);
  }

  lemma GoneMeans(s: System, t: System)
    requires D.Gone(s, t, LAB) && s.st.labs.Keys == {LAB}
    ensures t.st.labs == map[] && t.ip == s.ip && s.st.Target("lab") !in t.st.spaces
    ensures t.st.names == s.st.names && t.cp == s.cp - {LAB}
  {
  }

  /** A pass reads the serving ClusterLab, then a user deletes that. */
  lemma ReadsThrough(s: System) returns (acts: seq<Action>)
    requires Serving(s)
    ensures var t := Run(s, acts);
            && Holding(t, s.st.Target("lab")) && t.cp == map[] && t.st.names == s.st.names
            && t.st.labs.Keys == {LAB} && t.st.labs[LAB].deleting && t.st.labs[LAB].finalizer
            && TargetRight(t.st, LAB, t.st.labs[LAB].status)
  {
    hide Run;
    var a1 := [StartInst(VM), CallInst(VM, false), CallInst(VM, false)];
    ReadsParent(s);
    var s1 := Run(s, a1);
    var a2 := [CallInst(VM, false), CallInst(VM, false)];
    PassesGate(s1, s.st.insts[VM], s.st.labs[LAB]);
    var s2 := Run(s1, a2);
    var a3 := [RemoveLab(LAB)];
    assert a3 == [RemoveLab(LAB)] + [];
    RunCons(s2, RemoveLab(LAB), []);
    D.RunNone(Do(s2, RemoveLab(LAB)));
    acts := a1 + (a2 + a3);
    RunAppend(s, a1, a2 + a3);
    RunAppend(s1, a2, a3);
  }

  // ----- the gate, if two ClusterLabs share a target --------------------------------------------

  const NEIGHBOUR := Key("other", "lab")

  /** The ClusterLab says Running and the InstanceLab refers to it, whatever became of the namespace. */
  ghost predicate Hosting(s: Store)
  {
    && LAB in s.labs && VM in s.insts
    && (var lab := s.labs[LAB];
        && !lab.deleting && lab.finalizer && lab.spec == SPEC
        && lab.status.phase == Running && lab.status.target == s.Target("lab"))
    && (var inst := s.insts[VM]; !inst.deleting && inst.finalizer && inst.spec == ISPEC && inst.owner.None?)
  }

  /** The neighbour's first pass, then its deletion. */
  lemma NeighbourComes(s: System) returns (acts: seq<Action>)
    requires s.cp == map[] && Hosting(s.st) && NEIGHBOUR !in s.st.labs
    ensures var u := Do(s, CreateLab(NEIGHBOUR, SPEC, map[]));
            var t := Run(u, acts);
            && t.cp == map[] && t.ip == s.ip && Hosting(t.st) && t.st.names == s.st.names
            && NEIGHBOUR in t.st.labs && t.st.labs[NEIGHBOUR].deleting && t.st.labs[NEIGHBOUR].finalizer
            && t.st.labs[NEIGHBOUR].status.target == ""
  {
    hide Run, CS.Pass;
    var u := Do(s, CreateLab(NEIGHBOUR, SPEC, map[]));
    var a1 := LabPass(u, NEIGHBOUR);
    CS.AddsFinalizer(u.st.(dirty := u.st.dirty - {NEIGHBOUR}), NEIGHBOUR);
    var v := Run(u, a1);
    var a2 := [RemoveLab(NEIGHBOUR)];
    assert a2 == [RemoveLab(NEIGHBOUR)] + [];
    RunCons(v, RemoveLab(NEIGHBOUR), []);
    D.RunNone(Do(v, RemoveLab(NEIGHBOUR)));
    acts := a1 + a2;
    RunAppend(u, a1, a2);
  }

  lemma NeighbourGoes(s: System, t: System)
    requires D.Gone(s, t, NEIGHBOUR) && Hosting(s.st)
    ensures Hosting(t.st) && t.st.Target("lab") !in t.st.spaces && t.st.names == s.st.names
    ensures t.cp == s.cp - {NEIGHBOUR} && t.ip == s.ip
  {
  }

  /** The namespace is there again, without a quota so far, when an InstanceLab is reconciled. */
  lemma PassFindsOpenGate(s: Store, n: string)
    requires Hosting(s) && n == s.Target("lab") && n in s.spaces && !s.spaces[n].terminating
    requires s.spaces[n].hard.None? && s.spaces[n].objects == map[]
    ensures G.Ungated(I.Finish(s, VM, I.Get, IS.NONE, 0).st, n)
  {
    hide I.Finish;
    assert I.ParentKey(VM, s.insts[VM]) == LAB;
    G.GateOpensExactly(s, VM, IS.NONE, n);
  }

  /**
   A second ClusterLab with the same target, created while no InstanceLab pass is in flight, takes
   the namespace with it. The first one creates it anew and says Running all along: a run from the
   empty cluster, without a failure, that places a Pod where the quota is still to come.
   */
  lemma GateNeedsUnsharedTargets(names: Names) returns (before: seq<Action>, after: seq<Action>)
    ensures Run(Empty(names), before).ip == map[]
    ensures var t := Run(Empty(names), before + ([CreateLab(NEIGHBOUR, SPEC, map[])] + after)).st;
            G.Ungated(t, names.target("lab"))
  {
    hide Run, Do, Serving, D.Gone, I.Finish;
    var s := Empty(names);
    var n := names.target("lab");
    before := Serve(names);
    var s1 := Run(s, before);
    ServingHosts(s1);
    var s2 := Do(s1, CreateLab(NEIGHBOUR, SPEC, map[]));
    var a2 := NeighbourComes(s1);
    var s3 := Run(s2, a2);
    var a3 := D.Completes(s3, NEIGHBOUR);
    var s4 := Run(s3, a3);
    NeighbourGoes(s3, s4);
    var a4 := [StartCluster(LAB), CallCluster(LAB, false), CallCluster(LAB, false)];
    CreatesSpace(s4);
    var s5 := Run(s4, a4);
    var a5 := InstPass(s5, VM, IS.NONE);
    PassFindsOpenGate(s5.st, n);
    after := a2 + (a3 + (a4 + a5));
    RunAppend(s, before, [CreateLab(NEIGHBOUR, SPEC, map[])] + after);
    RunCons(s1, CreateLab(NEIGHBOUR, SPEC, map[]), after);
    RunAppend(s2, a2, a3 + (a4 + a5));
    RunAppend(s3, a3, a4 + a5);
    RunAppend(s4, a4, a5);
  }

  lemma ServingHosts(s: System)
    requires Serving(s)
    ensures s.cp == map[] && s.ip == map[] && Hosting(s.st) && NEIGHBOUR !in s.st.labs
  {
  }

  // ----- cleanup, if the bulk deletes fail -----------------------------------------------------

  /** The Pod of the InstanceLab, with its label, lies in the active namespace. */
  ghost predicate PodPlaced(s: Store, n: string)
  {
    var o := ObjectKey(Pod, s.names.child(Pod, "vm"));
    && n in s.spaces && !s.spaces[n].terminating
    && o in s.spaces[n].objects && s.spaces[n].objects[o].instance == "vm"
  }

  lemma WholePassPlaces(s: System) returns (acts: seq<Action>)
    requires Serving(s)
    ensures var t := Run(s, acts);
            && PodPlaced(t.st, s.st.Target("lab")) && t.cp == map[] && t.ip == map[]
            && VM in t.st.insts && !t.st.insts[VM].deleting && t.st.insts[VM].finalizer
            && t.st.insts[VM].spec == ISPEC && t.st.names == s.st.names && t.st.labs.Keys == {LAB}
  {
    hide Run, I.Finish, IS.Placed;
    acts := InstPass(s, VM, IS.NONE);
    var lab := s.st.labs[LAB];
    var owned := IS.Owner(s.st.insts[VM], lab);
    var u := Perform(s.st, PutInst(VM, owned));
    var n := s.st.Target("lab");
    IS.LivePass(s.st, VM);
    IS.PlacedKeeps(u, VM, owned, n, 0, PodUnknown);
    PlacedHasPod(u, owned, n);
  }

  lemma PlacedHasPod(s: Store, inst: InstanceLab, n: string)
    requires n in s.spaces && !s.spaces[n].terminating && inst.spec == ISPEC && VM in s.insts
    ensures PodPlaced(IS.Placed(s, VM, inst, n, 0, PodUnknown), n)
    ensures IS.Placed(s, VM, inst, n, 0, PodUnknown).names == s.names
  {
    hide IS.Placed, IS.EarlierKept, I.ObservedStatus;
    var u := IS.Applied(s, VM, inst, n, Pod);
    IS.AppliedKeeps(s, VM, inst, n, 1);
    SkipsToPod(s, inst, n);
    var seen := IS.Seen(s, VM, n, Pod, PodUnknown);
    IS.PlacedKeeps(u, VM, inst, n, 2, seen);
    KeptPod(s, u, IS.Placed(u, VM, inst, n, 2, seen), n);
  }

  lemma SkipsToPod(s: Store, inst: InstanceLab, n: string)
    requires n in s.spaces && !s.spaces[n].terminating && inst.spec == ISPEC
    ensures IS.Placed(s, VM, inst, n, 0, PodUnknown) ==
            IS.Placed(IS.Applied(s, VM, inst, n, Pod), VM, inst, n, 2, IS.Seen(s, VM, n, Pod, PodUnknown))
  {
    assert IS.Placed(s, VM, inst, n, 0, PodUnknown) == IS.Placed(s, VM, inst, n, 1, PodUnknown);
  }

  lemma KeptPod(s: Store, u: Store, t: Store, n: string)
    requires n in s.spaces && !s.spaces[n].terminating
    requires IS.EarlierKept(s, u, VM, n, 1) && IS.EarlierKept(u, t, VM, n, 2)
    requires n in u.spaces && I.Child(u, VM, Pod) in u.spaces[n].objects
    requires u.spaces[n].objects[I.Child(u, VM, Pod)].instance == "vm"
    ensures PodPlaced(t, n) && t.names == s.names
  {
    assert I.PLACE_ORDER[1] == Pod;
  }

  /** Fails the calls from the third to the sixth: the four bulk deletes. */
  const BULK_FAILS: nat -> bool := c => 2 <= c <= 5

  /** A cleanup that ends but misses the Pod, by `CleanupExactly`. */
  lemma CleanupMisses(s: Store, n: string, faults: nat -> bool)
    requires VM in s.insts && s.insts[VM].deleting && s.insts[VM].finalizer && !faults(0) && !faults(6)
    requires PodPlaced(s, n) && (n != CP.CleanupTarget(s, VM, faults(1)) || faults(4))
    ensures var t := I.Finish(s, VM, I.Get, faults, 0).st; VM !in t.insts && PodPlaced(t, n)
  {
    hide I.Finish, CP.CleanupTarget;
    CP.CleanupExactly(s, VM, faults, n, ObjectKey(Pod, s.names.child(Pod, "vm")));
  }

  /**
   The finalizer goes whether or not the bulk deletes went through: a run from the empty
   cluster after which no InstanceLab is stored, but a Pod of one runs on.
   */
  lemma CleanupNeedsBulkDeletes(names: Names) returns (acts: seq<Action>)
    ensures var t := Run(Empty(names), acts).st;
            PodPlaced(t, names.target("lab")) && VM !in t.insts
  {
    hide Run, Serving, PodPlaced, I.Finish;
    var s := Empty(names);
    var n := names.target("lab");
    var a1 := Serve(names);
    var s1 := Run(s, a1);
    var a2 := WholePassPlaces(s1);
    var s2 := Run(s1, a2);
    var s3 := Do(s2, RemoveInst(VM));
    var a3 := [RemoveInst(VM)];
    assert a3 == [RemoveInst(VM)] + [];
    RunCons(s2, RemoveInst(VM), []);
    D.RunNone(s3);
    var a4 := InstPass(s3, VM, BULK_FAILS);
    RemovesInst(s2, n);
    CleanupMisses(s3.st, n, BULK_FAILS);
    acts := a1 + (a2 + (a3 + a4));
    RunAppend(s, a1, a2 + (a3 + a4));
    RunAppend(s1, a2, a3 + a4);
    RunAppend(s2, a3, a4);
  }

  lemma RemovesInst(s: System, n: string)
    requires VM in s.st.insts && !s.st.insts[VM].deleting && s.st.insts[VM].finalizer && PodPlaced(s.st, n)
    ensures var t := Do(s, RemoveInst(VM));
            && VM in t.st.insts && t.st.insts[VM].deleting && t.st.insts[VM].finalizer
            && PodPlaced(t.st, n) && t.ip == s.ip
  {
  }

  /**
   Cleanup goes where the reference leads now: a run from the empty cluster, without any failure,
   in which the reference is edited before the deletion and a Pod of no InstanceLab runs on.
   */
  lemma CleanupNeedsFixedReferences(names: Names) returns (acts: seq<Action>)
    requires names.target("other") != names.target("lab")
    ensures var t := Run(Empty(names), acts).st;
            PodPlaced(t, names.target("lab")) && VM !in t.insts
  {
    hide Run, Serving, PodPlaced, I.Finish;
    var s := Empty(names);
    var n := names.target("lab");
    var a1 := Serve(names);
    var s1 := Run(s, a1);
    var a2 := WholePassPlaces(s1);
    var s2 := Run(s1, a2);
    var edit, remove := EditInst(VM, ISPEC.(ref := "other")), RemoveInst(VM);
    var s3 := Do(s2, edit);
    var s4 := Do(s3, remove);
    EditsAndRemoves(s2, n);
    var a3 := InstPass(s4, VM, IS.NONE);
    CleanupMisses(s4.st, n, IS.NONE);
    acts := a1 + (a2 + ([edit] + ([remove] + a3)));
    RunAppend(s, a1, a2 + ([edit] + ([remove] + a3)));
    RunAppend(s1, a2, [edit] + ([remove] + a3));
    RunCons(s2, edit, [remove] + a3);
    RunCons(s3, remove, a3);
  }

  lemma EditsAndRemoves(s: System, n: string)
    requires VM in s.st.insts && !s.st.insts[VM].deleting && s.st.insts[VM].finalizer && s.st.insts[VM].spec == ISPEC
    requires PodPlaced(s.st, n) && s.st.labs.Keys == {LAB}
    ensures var t := Do(Do(s, EditInst(VM, ISPEC.(ref := "other"))), RemoveInst(VM));
            && VM in t.st.insts && t.st.insts[VM].deleting && t.st.insts[VM].finalizer
            && t.st.insts[VM].spec.ref == "other" && t.ip == s.ip
            && Key("student", "other") !in t.st.labs && PodPlaced(t.st, n) && t.st.names == s.st.names
  {
    assert |"other"| == 5 && |"lab"| == 3;
  }

  // ----- two namespaces of origin, one target ------------------------------------------------------

  /**
   Names of targets ignore the namespace of origin: deleting a ClusterLab takes the namespace of
   every other one with the same target along, and only of those.
   */
  lemma DeletionTakesNeighbours(s: Store, k: Key, l: Key)
    requires k in s.labs && s.labs[k].deleting && s.labs[k].finalizer && TargetRight(s, k, s.labs[k].status)
    requires l in s.labs && s.Target(l.name) in s.spaces && !s.spaces[s.Target(l.name)].terminating
    ensures var t := CS.Pass(s, k);
            s.Target(l.name) in t.spaces
            && (t.spaces[s.Target(l.name)].terminating <==> s.Target(k.name) == s.Target(l.name))
  {
    hide CS.Pass;
    CS.DeletingPass(s, k);
  }

  // ----- counters, if the list fails -----------------------------------------------------------------

  lemma FailureIsErr(s: Store, k: Key, lab: ClusterLab, mem: ClusterStatus, reason: string,
                     faults: nat -> bool, calls: nat)
    ensures CR.FailedFrom(s, k, lab, mem, reason, faults, calls).verdict == C.Err
  {
    hide C.Finish, C.FailedStatus;
    CR.Unfold(s, k, C.WriteFailed(lab, C.FailedStatus(mem, reason, s.now)), faults, calls);
  }

  /** From the list on, a pass that ends well has stored what it counted. */
  lemma StoresCounts(s: Store, k: Key, lab: ClusterLab, mem: ClusterStatus, wait: int, faults: nat -> bool, calls: nat)
    requires !lab.deleting
    ensures var f := C.Finish(s, k, C.ListInstances(lab, mem, wait), faults, calls);
            f.verdict.Done? ==>
              && k in f.st.labs && f.st.insts == s.insts
              && f.st.labs[k].status.total == (if faults(calls) then mem.total else |Members(s, k)|)
              && f.st.labs[k].status.ready == (if faults(calls) then mem.ready else |RunningMembers(s, k)|)
  {
    hide C.Finish, Members, RunningMembers, Conditions.Set;
    CR.AtList(s, k, lab, mem, wait, faults, calls);
    var report := C.RunningStatus(C.Counted(s, k, mem, faults(calls)), s.Target(k.name), lab.spec.network, s.now);
    CR.AtStatus(s, k, lab, report, wait, faults, calls + 1);
  }

  /** A provisioning pass that ends well; its list is the fourth call from here. */
  lemma ProvisioningCounts(s: Store, k: Key, lab: ClusterLab, mem: ClusterStatus, wait: int,
                           faults: nat -> bool, calls: nat)
    requires !lab.deleting
    ensures var f := C.Finish(s, k, C.ApplyNamespace(lab, mem, wait), faults, calls);
            f.verdict.Done? ==>
              && k in f.st.labs && f.st.insts == s.insts
              && f.st.labs[k].status.total == (if faults(calls + 3) then mem.total else |Members(s, k)|)
              && f.st.labs[k].status.ready == (if faults(calls + 3) then mem.ready else |RunningMembers(s, k)|)
  {
    hide C.Finish, CR.FailedFrom, Perform, ApplySpace, ApplyHard, ApplyPolicy;
    var n := s.Target(k.name);
    CR.AtNamespace(s, k, lab, mem, wait, faults, calls);
    FailureIsErr(s, k, lab, mem, "NamespaceError", faults, calls + 1);
    CS.SpacePut(s, k, n, lab.labels);
    CS.SpacesOnly(s, ApplySpace(s, k, n, lab.labels));
    var s1 := Perform(s, ApplySpace(s, k, n, lab.labels));
    CR.AtQuota(s1, k, lab, mem, wait, faults, calls + 1);
    FailureIsErr(s1, k, lab, mem, "QuotaError", faults, calls + 2);
    if AcceptsHard(s1, n) {
      CS.HardPut(s1, n, lab.spec.quota);
      CS.SpacesOnly(s1, ApplyHard(s1, n, lab.spec.quota));
      var s2 := Perform(s1, ApplyHard(s1, n, lab.spec.quota));
      CR.AtNetwork(s2, k, lab, mem, wait, faults, calls + 2);
      FailureIsErr(s2, k, lab, mem, "NetworkPolicyError", faults, calls + 3);
      if AcceptsPolicy(s2, n) {
        CS.PolicyPut(s2, n, lab.spec.network);
        CS.SpacesOnly(s2, ApplyPolicy(s2, n, lab.spec.network));
        var s3 := Perform(s2, ApplyPolicy(s2, n, lab.spec.network));
        StoresCounts(s3, k, lab, mem, wait, faults, calls + 3);
        SameMembers(s, s3, k);
      }
    }
  }

  lemma SameMembers(s: Store, t: Store, k: Key)
    requires t.insts == s.insts
    ensures Members(t, k) == Members(s, k) && RunningMembers(t, k) == RunningMembers(s, k)
  {
  }

  /**
   The error of the list is dropped. After a pass over a live, unexpired ClusterLab that ends
   well, the counters agree exactly if the list, its fifth call, went through or they agreed before.
   */
  lemma CountersNeedTheList(s: Store, k: Key, faults: nat -> bool)
    requires k in s.labs && !s.labs[k].deleting && s.labs[k].finalizer && !CS.Expired(s.labs[k], s.now)
    requires C.Finish(s, k, C.Get, faults, 0).verdict.Done?
    ensures var t := C.Finish(s, k, C.Get, faults, 0).st;
            && k in t.labs
            && (Counters.Agrees(t, k, t.labs[k].status) <==> !faults(4) || Counters.Agrees(s, k, s.labs[k].status))
  {
    hide C.Finish, Members, RunningMembers;
    var lab := s.labs[k];
    var mem := C.Opening(s, k, lab);
    CR.Unfold(s, k, C.Get, faults, 0);
    match lab.spec.ttl {
      case NoTtl => ProvisioningCounts(s, k, lab, mem, 0, faults, 1);
      case BadTtl =>
      case Lasts(_) =>
        CR.AtClock(s, k, lab, mem, faults, 1);
        ProvisioningCounts(s, k, lab, mem, mem.expiresAt.value - s.now, faults, 1);
    }
    SameMembers(s, C.Finish(s, k, C.Get, faults, 0).st, k);
  }

  // ----- expiry, if it falls between the two clock readings -------------------------------------------

  /** With everything in place a provisioning pass changes nothing and asks for the delay it computed. */
  lemma IdlePass(s: Store, k: Key, wait: int, calls: nat)
    requires CS.AllDone(s, k) && !s.labs[k].deleting
    requires AcceptsHard(s, s.Target(k.name)) && AcceptsPolicy(s, s.Target(k.name))
    ensures C.Finish(s, k, C.ApplyNamespace(s.labs[k], s.labs[k].status, wait), CS.NONE, calls) ==
            C.Finished(s, C.Done(if wait > 0 then wait else 0), calls + 5)
  {
    hide C.Finish, SpaceLabels, Hard, PolicyFor, C.RunningStatus, C.Counted;
    var lab := s.labs[k];
    var mem := lab.status;
    var n := s.Target(k.name);
    CR.AtNamespace(s, k, lab, mem, wait, CS.NONE, calls);
    CS.SpacedSame(s, k, lab);
    CR.AtQuota(s, k, lab, mem, wait, CS.NONE, calls + 1);
    CS.LimitedSame(s, k, lab);
    CR.AtNetwork(s, k, lab, mem, wait, CS.NONE, calls + 2);
    CS.PolicedSame(s, k, lab);
    CR.AtList(s, k, lab, mem, wait, CS.NONE, calls + 3);
    CR.AtStatus(s, k, lab, CS.Report(s, k, lab, mem, ""), wait, CS.NONE, calls + 4);
    ReportNow(s, k);
  }

  lemma ReportNow(s: Store, k: Key)
    requires CS.ReportDone(s, k, "")
    ensures CS.Report(s, k, s.labs[k], s.labs[k].status, "") == s.labs[k].status
  {
    hide CS.Report;
    assert s.(now := s.now) == s;
  }

  /** Time passes between the first reading of the clock and the second one. */
  lemma ReadsTwice(s: System, k: Key, dt: nat) returns (acts: seq<Action>)
    requires k !in s.cp && k in s.st.labs && !s.st.labs[k].deleting && s.st.labs[k].finalizer
    requires CS.AllDone(s.st, k)
    requires AcceptsHard(s.st, s.st.Target(k.name)) && AcceptsPolicy(s.st, s.st.Target(k.name))
    requires s.st.labs[k].spec.ttl.Lasts? && !CS.Expired(s.st.labs[k], s.st.now)
    ensures var lab := s.st.labs[k];
            var later := s.st.(now := s.st.now + dt, dirty := s.st.dirty - {k});
            var wait := lab.created + lab.spec.ttl.duration - later.now;
            Run(s, acts) == ClusterEnd(s, k, C.Finished(later, C.Done(if wait > 0 then wait else 0), 6))
  {
    hide C.Finish, SettleCluster, Run, CS.LabelsDone, CS.HardDone, CS.PolicyDone, CS.Report;
    var lab := s.st.labs[k];
    var a := [StartCluster(k), CallCluster(k, false), Tick(dt)];
    D.RunThree(s, StartCluster(k), CallCluster(k, false), Tick(dt));
    var u := Run(s, a);
    var later := s.st.(now := s.st.now + dt, dirty := s.st.dirty - {k});
    StartsReading(s, k, dt);
    var rest := ClusterPassIsRun(u, k, CS.NONE, 1);
    CR.AtClock(later, k, lab, lab.status, CS.NONE, 1);
    DoneLater(s.st, k, later);
    IdlePass(later, k, lab.status.expiresAt.value - later.now, 1);
    acts := a + rest;
    RunAppend(s, a, rest);
    EndSame(s, u, k, C.Finish(later, k, C.ReadClock(lab, lab.status), CS.NONE, 1));
  }

  lemma StartsReading(s: System, k: Key, dt: nat)
    requires k !in s.cp && k in s.st.labs && !s.st.labs[k].deleting && s.st.labs[k].finalizer
    requires C.Opening(s.st, k, s.st.labs[k]) == s.st.labs[k].status
    requires s.st.labs[k].spec.ttl.Lasts? && !CS.Expired(s.st.labs[k], s.st.now)
    ensures var lab := s.st.labs[k];
            var u := Do(Do(Do(s, StartCluster(k)), CallCluster(k, false)), Tick(dt));
            && u.st == s.st.(now := s.st.now + dt, dirty := s.st.dirty - {k})
            && u.cp == s.cp[k := C.ReadClock(lab, lab.status)] && u.ip == s.ip
            && lab.status.expiresAt == Some(lab.created + lab.spec.ttl.duration)
  {
    var u := Do(s, StartCluster(k));
    assert u.cp[k] == C.Get;
    assert C.Opening(u.st, k, s.st.labs[k]) == C.Opening(s.st, k, s.st.labs[k]);
  }

  lemma DoneLater(s: Store, k: Key, t: Store)
    requires CS.AllDone(s, k) && t == s.(now := t.now, dirty := t.dirty)
    ensures CS.AllDone(t, k)
  {
    hide SpaceLabels, Hard, PolicyFor, C.RunningStatus, C.FailedStatus, CS.Report;
    forall refused: string | CS.ReportDone(s, k, refused) ensures CS.ReportDone(t, k, refused) {
      ReportLater(s, k, t, refused);
    }
  }

  lemma ReportLater(s: Store, k: Key, t: Store, refused: string)
    requires CS.ReportDone(s, k, refused) && t == s.(now := t.now, dirty := t.dirty)
    ensures CS.ReportDone(t, k, refused)
  {
    hide C.RunningStatus, C.FailedStatus;
    forall later
      ensures CS.Report(t.(now := later), k, t.labs[k], t.labs[k].status, refused) == t.labs[k].status
    {
      SameMembers(s.(now := later), t.(now := later), k);
      assert CS.Report(s.(now := later), k, s.labs[k], s.labs[k].status, refused) == s.labs[k].status;
    }
  }

  lemma EndSame(s: System, u: System, k: Key, f: C.Finished)
    requires u.ip == s.ip && u.cp - {k} == s.cp - {k} && !f.verdict.Next?
    ensures ClusterEnd(u, k, f) == ClusterEnd(s, k, f)
  {
  }

  /**
   A settled live ClusterLab with a TTL, no timer yet, and a pass whose second clock reading
   comes `dt` after the first: the pass leaves a timer exactly if the second reading, too, came
   before the expiry. If it did not, the lab is live, expired, and nothing will look at it again.
   */
  lemma ExpiryNeedsBothReadings(s: System, k: Key, dt: nat) returns (acts: seq<Action>)
    requires k !in s.cp && k in s.st.labs && !s.st.labs[k].deleting && s.st.labs[k].finalizer
    requires CS.AllDone(s.st, k) && k !in s.st.timers
    requires AcceptsHard(s.st, s.st.Target(k.name)) && AcceptsPolicy(s.st, s.st.Target(k.name))
    requires s.st.labs[k].spec.ttl.Lasts? && !CS.Expired(s.st.labs[k], s.st.now)
    ensures var t := Run(s, acts);
            && t.st.labs == s.st.labs && t.st.now == s.st.now + dt && k !in t.st.dirty && k !in t.cp
            && (k in t.st.timers <==> !CS.Expired(s.st.labs[k], t.st.now))
  {
    hide Run, CS.AllDone;
    acts := ReadsTwice(s, k, dt);
  }
}
