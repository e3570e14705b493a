/**
 A pass that nobody interrupts is a run: the `Finish` functions, which the reconcilers are
 proved against, take no step that the machine does not take. So whatever holds in every run
 holds after a reconcile, whichever of its calls fail.
 */
module Passes {
  import opened LabStore
  import opened LabSystem
  import NoResidue
  import opened ReadinessGate
  import C = ClusterLabController
  import I = InstanceLabController

  /** Where an uninterrupted pass of ClusterLab `k` ends. */
  function ClusterEnd(s: System, k: Key, f: C.Finished): System
  {
    SettleCluster(s.(st := f.st), k, C.Outcome(Nothing, f.verdict))
  }

  function InstEnd(s: System, i: Key, f: I.Finished): System
  {
    s.(st := f.st, ip := s.ip - {i})
  }

  /** The end of a pass does not depend on how far the pass in flight had come. */
  lemma EndOfAnyStage(s: System, k: Key, p: C.Pass, f: C.Finished)
    requires !f.verdict.Next?
    ensures ClusterEnd(s.(cp := s.cp[k := p]), k, f) == ClusterEnd(s, k, f)
  {
    assert s.cp[k := p] - {k} == s.cp - {k};
  }

  lemma {:induction false} ClusterPassIsRun(s: System, k: Key, faults: nat -> bool, calls: nat)
    returns (acts: seq<Action>)
    requires k in s.cp
    ensures Run(s, acts) == ClusterEnd(s, k, C.Finish(s.st, k, s.cp[k], faults, calls))
    ensures |acts| <= C.Rank(s.cp[k])
    ensures forall j :: 0 <= j < |acts| ==> acts[j].CallCluster? && acts[j].k == k
    decreases C.Rank(s.cp[k])
  {
    hide C.Call, Perform;
    var p := s.cp[k];
    var a := CallCluster(k, faults(calls));
    var out := C.Call(s.st, k, p, faults(calls));
    var made := if C.Silent(p) then calls else calls + 1;
    var t := Do(s, a);
    if out.then_.Next? {
      var rest := ClusterPassIsRun(t, k, faults, made);
      acts := [a] + rest;
      RunCons(s, a, rest);
      var f := C.Finish(t.st, k, out.then_.pass, faults, made);
      EndOfAnyStage(s.(st := t.st), k, out.then_.pass, f);
    } else {
      acts := [a];
      assert [a] == [a] + [];
      RunCons(s, a, []);
      NothingHappens(Perform(s.st, out.write));
    }
  }

  lemma {:induction false} InstPassIsRun(s: System, i: Key, faults: nat -> bool, calls: nat)
    returns (acts: seq<Action>)
    requires i in s.ip
    ensures Run(s, acts) == InstEnd(s, i, I.Finish(s.st, i, s.ip[i], faults, calls))
    ensures |acts| <= I.Rank(s.ip[i])
    ensures forall j :: 0 <= j < |acts| ==> acts[j].CallInst? && acts[j].i == i
    decreases I.Rank(s.ip[i])
  {
    hide I.Call, Perform;
    var p := s.ip[i];
    var a := CallInst(i, faults(calls));
    var out := I.Call(s.st, i, p, faults(calls));
    var made := if I.Silent(p) then calls else calls + 1;
    var t := Do(s, a);
    if out.then_.Next? {
      var rest := InstPassIsRun(t, i, faults, made);
      acts := [a] + rest;
      RunCons(s, a, rest);
      assert s.ip[i := out.then_.pass] - {i} == s.ip - {i};
    } else {
      acts := [a];
      assert [a] == [a] + [];
      RunCons(s, a, []);
    }
  }

  /** A whole reconcile of a ClusterLab, from the work queue on. */
  lemma ReconcileIsRun(s: System, k: Key, faults: nat -> bool) returns (acts: seq<Action>)
    requires k !in s.cp
    ensures var taken := s.st.(dirty := s.st.dirty - {k});
            Run(s, acts) == ClusterEnd(s, k, C.Finish(taken, k, C.Get, faults, 0))
    ensures |acts| <= 11 && forall j :: 0 <= j < |acts| ==> !acts[j].CreateLab?
  {
    hide Run, Perform, C.Finish, SettleCluster;
    var t := Do(s, StartCluster(k));
    var rest := ClusterPassIsRun(t, k, faults, 0);
    acts := [StartCluster(k)] + rest;
    RunCons(s, StartCluster(k), rest);
    EndOfAnyStage(s.(st := t.st), k, C.Get, C.Finish(t.st, k, C.Get, faults, 0));
    assert t == s.(st := t.st).(cp := s.cp[k := C.Get]);
    SettleFrom(s, t, k, C.Finish(t.st, k, C.Get, faults, 0));
  }

  lemma SettleFrom(s: System, t: System, k: Key, f: C.Finished)
    requires t.ip == s.ip && t.cp == s.cp[k := C.Get] && !f.verdict.Next?
    ensures ClusterEnd(t, k, f) == ClusterEnd(s, k, f)
  {
    assert t.cp - {k} == s.cp - {k};
  }

  lemma InstReconcileIsRun(s: System, i: Key, faults: nat -> bool) returns (acts: seq<Action>)
    requires i !in s.ip
    ensures Run(s, acts) == InstEnd(s, i, I.Finish(s.st, i, I.Get, faults, 0))
    ensures 0 < |acts| <= 11 && acts[0] == StartInst(i) && forall j :: 0 < j < |acts| ==> acts[j].CallInst?
  {
    hide Run, Perform, I.Finish;
    var t := Do(s, StartInst(i));
    var rest := InstPassIsRun(t, i, faults, 0);
    acts := [StartInst(i)] + rest;
    RunCons(s, StartInst(i), rest);
    assert t.ip - {i} == s.ip - {i};
  }

  // ----- what holds in every run holds after a reconcile --------------------------------------

  /** Whatever run went before and whichever calls of a reconcile fail: it leaves no residue. */
  lemma NoResidueAfterReconcile(s: System, acts: seq<Action>, k: Key, faults: nat -> bool, n: string)
    requires Initial(s) && k !in Run(s, acts).cp
    requires var t := Run(s, acts).st;
             n in C.Finish(t.(dirty := t.dirty - {k}), k, C.Get, faults, 0).st.spaces
    ensures var t := Run(s, acts).st;
            var u := C.Finish(t.(dirty := t.dirty - {k}), k, C.Get, faults, 0).st;
            exists l :: l in u.labs && u.labs[l].finalizer && u.Target(l.name) == n
  {
    hide Run, C.Finish, SettleCluster;
    var t := Run(s, acts);
    var f := C.Finish(t.st.(dirty := t.st.dirty - {k}), k, C.Get, faults, 0);
    var more := ReconcileIsRun(t, k, faults);
    RunAppend(s, acts, more);
    SettleQueue(t.(st := f.st), k, C.Outcome(Nothing, f.verdict));
    NothingHappens(f.st);
    NoResidue.NoResidue(s, acts + more, n);
  }

  lemma {:induction false} FreshOnly(s: System, acts: seq<Action>, more: seq<Action>)
    requires FreshTargets(s, acts) && forall j :: 0 <= j < |more| ==> !more[j].CreateLab?
    ensures FreshTargets(s, acts + more)
    decreases |acts| + |more|
  {
    hide Do;
    if acts != [] {
      assert (acts + more)[0] == acts[0] && (acts + more)[1..] == acts[1..] + more;
      FreshOnly(Do(s, acts[0]), acts[1..], more);
    } else if more != [] {
      assert acts + more == more;
      assert [] + more[1..] == more[1..];
      FreshOnly(Do(s, more[0]), [], more[1..]);
    }
  }

  /** And no reconcile of an InstanceLab, with any calls failing, leaves a workload past the gate. */
  lemma GateAfterReconcile(s: System, acts: seq<Action>, i: Key, faults: nat -> bool, n: string)
    requires Initial(s) && FreshTargets(s, acts) && i !in Run(s, acts).ip
    requires n in I.Finish(Run(s, acts).st, i, I.Get, faults, 0).st.spaces
    ensures var space := I.Finish(Run(s, acts).st, i, I.Get, faults, 0).st.spaces[n];
            !space.terminating && space.objects != map[] ==> space.hard.Some? && space.policy.Some?
  {
    hide Run, I.Finish;
    var more := InstReconcileIsRun(Run(s, acts), i, faults);
    RunAppend(s, acts, more);
    FreshOnly(s, acts, more);
    Gate(s, acts + more, n);
  }
}
