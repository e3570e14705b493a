/**
 What one reconcile of an InstanceLab does, for every store and every way its calls can fail: when
 it waits for the parent, which children it places behind the open gate, and what it reports. The
 children a spec calls for are those of `CallsFor`, in the order of `ORDER`.
 */
module PlacementPass {
  import opened Prelude
  import opened Conditions
  import opened LabStore
  import opened InstanceLabReconciler
  import opened GatePass
  import I = InstanceLabController

  const ORDER: seq<Kind> := [Pvc, Pod, Service, Ingress]

  function Stage(kind: Kind): (j: nat)
    ensures j < 4 && ORDER[j] == kind
  {
    match kind case Pvc => 0 case Pod => 1 case Service => 2 case Ingress => 3
  }

  /** A PVC for a storage limit, a Pod always, a Service for ports, an Ingress for an exposed port. */
  predicate CallsFor(spec: InstanceSpec, kind: Kind)
  {
    || kind == Pod
    || (kind == Pvc && spec.storage)
    || (kind == Service && |spec.ports| > 0)
    || (kind == Ingress && exists j :: 0 <= j < |spec.ports| && spec.ports[j].expose)
  }

  /** The calls that the children between two stages take. */
  function Calls(spec: InstanceSpec, from: nat, to: nat): nat
    requires from <= 4 && to <= 4
    decreases 4 - from
  {
    if from >= to then 0 else (if CallsFor(spec, ORDER[from]) then 1 else 0) + Calls(spec, from + 1, to)
  }

  lemma CallsForIsWanted(spec: InstanceSpec, stage: nat)
    requires stage < 4
    ensures I.PLACE_ORDER[stage] == ORDER[stage]
    ensures I.Wanted(spec, ORDER[stage]) <==> CallsFor(spec, ORDER[stage])
  {
  }

  /** The calls a reconcile makes before the first child: two reads, and the owner reference if it may set it. */
  function CallsBefore(inst: InstanceLab): nat
  {
    if inst.owner.Some? && inst.owner.value.name != inst.spec.ref then 2 else 3
  }

  /** The gate of a live InstanceLab is open to `n`: its parent says Running, and `n` is its target. */
  ghost predicate Open(s: Store, i: Key, faults: nat -> bool, n: string)
  {
    && i in s.insts && !s.insts[i].deleting && s.insts[i].finalizer && !faults(0) && !faults(1)
    && var k := Key(i.origin, s.insts[i].spec.ref);
       && k in s.labs && s.labs[k].status.phase == Running
       && n == if s.labs[k].status.target == "" then s.Target(k.name) else s.labs[k].status.target
  }

  /** What the owner reference is after an attempt to set it. */
  function OwnerAfter(inst: InstanceLab, parent: ClusterLab, fault: bool): InstanceLab
  {
    if fault || (inst.owner.Some? && inst.owner.value.name != inst.spec.ref) then inst
    else inst.(owner := Some(Owner(inst.spec.ref, parent.uid)))
  }

  /** Behind the open gate a reconcile goes on with the children. */
  lemma Opens(s: Store, i: Key, faults: nat -> bool, n: string) returns (u: Store, inst: InstanceLab)
    requires Open(s, i, faults, n)
    ensures var was := s.insts[i];
            && inst == OwnerAfter(was, s.labs[Key(i.origin, was.spec.ref)], faults(2))
            && i in u.insts && u.insts[i] == inst
            && u == s.(insts := s.insts[i := inst], dirty := u.dirty, nextUid := u.nextUid)
            && I.Finish(s, i, I.Get, faults, 0) ==
               I.Finish(u, i, I.Place(inst, n, 0, PodUnknown), faults, CallsBefore(was))
  {
    hide I.Finish;
    var was := s.insts[i];
    var k := I.ParentKey(i, was);
    var parent := s.labs[k];
    Unfold(s, i, I.Get, faults, 0);
    Unfold(s, i, I.GetParent(was), faults, 1);
    AtOwner(s, i, was, parent, faults, 2);
    inst := OwnerAfter(was, parent, faults(2));
    u := if I.Ownable(was) && !faults(2) then Perform(s, UpdateInst(i, inst)) else s;
    assert s.insts[i := was] == s.insts;
  }

  // ----- children ----------------------------------------------------------------------------------

  /** From a stage on: the spec calls for the child, and every call up to its own goes through. */
  ghost predicate Reached(spec: InstanceSpec, stage: nat, kind: Kind, faults: nat -> bool, calls: nat)
  {
    && stage <= Stage(kind) && CallsFor(spec, kind)
    && forall c :: calls <= c <= calls + Calls(spec, stage, Stage(kind)) ==> !faults(c)
  }

  lemma ReachedStep(spec: InstanceSpec, stage: nat, kind: Kind, faults: nat -> bool, calls: nat)
    requires stage < 4
    ensures Reached(spec, stage, kind, faults, calls) <==>
            if !CallsFor(spec, ORDER[stage]) then Reached(spec, stage + 1, kind, faults, calls)
            else !faults(calls) && (kind == ORDER[stage] || Reached(spec, stage + 1, kind, faults, calls + 1))
  {
    hide CallsFor;
  }

  /** A child is there if it was, or if the pass reaches it. */
  lemma {:induction false} StageExactly(s: Store, i: Key, inst: InstanceLab, n: string, stage: nat, seen: PodPhase,
                                        faults: nat -> bool, calls: nat, kind: Kind)
    requires stage <= 4 && n in s.spaces && !s.spaces[n].terminating
    ensures var t := I.Finish(s, i, I.Place(inst, n, stage, seen), faults, calls).st;
            var o := I.Child(s, i, kind);
            && n in t.spaces
            && (o in t.spaces[n].objects <==>
                o in s.spaces[n].objects || Reached(inst.spec, stage, kind, faults, calls))
    decreases 4 - stage
  {
    hide I.Finish, I.Wanted, ApplyWorkload, Perform, CallsFor, Reached, Calls;
    if stage == 4 {
      AtEnd(s, i, inst, n, seen, faults, calls);
      ReportSparesSpaces(s, i, I.WriteStatus(inst, seen), faults, calls);
      NoneLeft(inst.spec, kind, faults, calls);
    } else {
      var at := ORDER[stage];
      CallsForIsWanted(inst.spec, stage);
      ReachedStep(inst.spec, stage, kind, faults, calls);
      AtPlace(s, i, inst, n, stage, seen, faults, calls);
      if !CallsFor(inst.spec, at) {
        StageExactly(s, i, inst, n, stage + 1, seen, faults, calls, kind);
      } else if faults(calls) {
        ReportSparesSpaces(s, i, I.WriteFailed(inst, I.FailReason(at)), faults, calls + 1);
      } else {
        var o := I.Child(s, i, at);
        var u := Perform(s, ApplyWorkload(s, n, o, i, I.ParentKey(i, inst)));
        AppliedAdds(s, i, inst, n, at);
        StageExactly(u, i, inst, n, stage + 1, if at == Pod then PhaseAt(s, n, o) else seen, faults, calls + 1, kind);
      }
    }
  }

  lemma NoneLeft(spec: InstanceSpec, kind: Kind, faults: nat -> bool, calls: nat)
    ensures !Reached(spec, 4, kind, faults, calls)
  {
  }

  lemma ReportSparesSpaces(s: Store, i: Key, p: I.Pass, faults: nat -> bool, calls: nat)
    requires p.WriteStatus? || p.WriteFailed?
    ensures var t := I.Finish(s, i, p, faults, calls).st; t.spaces == s.spaces && t.names == s.names
  {
    hide I.ObservedStatus, I.FailedStatus;
    Unfold(s, i, p, faults, calls);
  }

  lemma AppliedAdds(s: Store, i: Key, inst: InstanceLab, n: string, kind: Kind)
    requires n in s.spaces && !s.spaces[n].terminating
    ensures var o := I.Child(s, i, kind);
            var t := Perform(s, ApplyWorkload(s, n, o, i, I.ParentKey(i, inst)));
            && t == s.(spaces := t.spaces) && t.spaces.Keys == s.spaces.Keys
            && !t.spaces[n].terminating && t.spaces[n].objects.Keys == s.spaces[n].objects.Keys + {o}
            && t.spaces[n].objects[o].instance == i.name && t.spaces[n].objects[o].cluster == inst.spec.ref
            && t.spaces[n].objects[o].phase == PhaseAt(s, n, o)
            && (forall p :: p in s.spaces[n].objects && p != o ==> t.spaces[n].objects[p] == s.spaces[n].objects[p])
            && (forall m :: m in s.spaces && m != n ==> t.spaces[m] == s.spaces[m])
  {
  }

  /** The object is none of the children of `i`. */
  predicate Foreign(s: Store, i: Key, o: ObjectKey)
  {
    o.name != s.names.child(o.kind, i.name)
  }

  /** Nothing goes, nothing comes or changes but children of `i`, and those carry its labels. */
  ghost predicate OnlyChildren(s: Store, t: Store, i: Key, ref: string, n: string)
  {
    && t.names == s.names && t.spaces.Keys == s.spaces.Keys && n in s.spaces
    && (forall m :: m in s.spaces && m != n ==> t.spaces[m] == s.spaces[m])
    && t.spaces[n] == s.spaces[n].(objects := t.spaces[n].objects)
    && s.spaces[n].objects.Keys <= t.spaces[n].objects.Keys
    && forall o :: o in t.spaces[n].objects ==>
         || (o in s.spaces[n].objects && t.spaces[n].objects[o] == s.spaces[n].objects[o])
         || (!Foreign(s, i, o) && t.spaces[n].objects[o].instance == i.name && t.spaces[n].objects[o].cluster == ref)
  }

  lemma OnlyChildrenOn(s: Store, u: Store, t: Store, i: Key, ref: string, n: string)
    requires OnlyChildren(s, u, i, ref, n) && OnlyChildren(u, t, i, ref, n)
    ensures OnlyChildren(s, t, i, ref, n)
  {
  }

  lemma AppliedOnlyChild(s: Store, i: Key, inst: InstanceLab, n: string, kind: Kind)
    requires n in s.spaces && !s.spaces[n].terminating
    ensures OnlyChildren(s, Perform(s, ApplyWorkload(s, n, I.Child(s, i, kind), i, I.ParentKey(i, inst))),
                         i, inst.spec.ref, n)
  {
  }

  lemma StatusOnly(s: Store, i: Key, p: I.Pass, faults: nat -> bool, calls: nat, ref: string, n: string)
    requires (p.WriteStatus? || p.WriteFailed?) && n in s.spaces
    ensures OnlyChildren(s, I.Finish(s, i, p, faults, calls).st, i, ref, n)
  {
    hide I.Finish;
    ReportSparesSpaces(s, i, p, faults, calls);
  }

  lemma {:induction false} StageOnlyChildren(s: Store, i: Key, inst: InstanceLab, n: string, stage: nat,
                                             seen: PodPhase, faults: nat -> bool, calls: nat)
    requires stage <= 4 && n in s.spaces && !s.spaces[n].terminating
    ensures OnlyChildren(s, I.Finish(s, i, I.Place(inst, n, stage, seen), faults, calls).st, i, inst.spec.ref, n)
    decreases 4 - stage
  {
    hide I.Finish, I.Wanted, ApplyWorkload, Perform, OnlyChildren;
    if stage == 4 {
      AtEnd(s, i, inst, n, seen, faults, calls);
      StatusOnly(s, i, I.WriteStatus(inst, seen), faults, calls, inst.spec.ref, n);
    } else {
      var at := I.PLACE_ORDER[stage];
      AtPlace(s, i, inst, n, stage, seen, faults, calls);
      if !I.Wanted(inst.spec, at) {
        StageOnlyChildren(s, i, inst, n, stage + 1, seen, faults, calls);
      } else if faults(calls) {
        StatusOnly(s, i, I.WriteFailed(inst, I.FailReason(at)), faults, calls + 1, inst.spec.ref, n);
      } else {
        var o := I.Child(s, i, at);
        var u := Perform(s, ApplyWorkload(s, n, o, i, I.ParentKey(i, inst)));
        AppliedAdds(s, i, inst, n, at);
        AppliedOnlyChild(s, i, inst, n, at);
        var then_ := if at == Pod then PhaseAt(s, n, o) else seen;
        StageOnlyChildren(u, i, inst, n, stage + 1, then_, faults, calls + 1);
        OnlyChildrenOn(s, u, I.Finish(u, i, I.Place(inst, n, stage + 1, then_), faults, calls + 1).st,
                       i, inst.spec.ref, n);
      }
    }
  }

  /**
   Behind the open gate to an active namespace, the child of a kind is there afterwards exactly if
   it was before, or if the spec calls for it and the calls up to its own go through: PVC exactly
   with a storage limit, Pod always, Service exactly with ports, Ingress exactly with an exposed
   port, in this order. Nothing else changes, and what is placed carries the labels.
   */
  lemma PlacesExactlyWanted(s: Store, i: Key, faults: nat -> bool, n: string)
    requires Open(s, i, faults, n) && n in s.spaces && !s.spaces[n].terminating
    ensures var t := I.Finish(s, i, I.Get, faults, 0).st;
            var spec := s.insts[i].spec;
            var first := CallsBefore(s.insts[i]);
            && OnlyChildren(s, t, i, spec.ref, n)
            && forall kind: Kind ::
                 ObjectKey(kind, s.names.child(kind, i.name)) in t.spaces[n].objects <==>
                 || ObjectKey(kind, s.names.child(kind, i.name)) in s.spaces[n].objects
                 || (CallsFor(spec, kind)
                     && forall c :: first <= c <= first + Calls(spec, 0, Stage(kind)) ==> !faults(c))
  {
    hide I.Finish, OnlyChildren, CallsFor;
    var u, inst := Opens(s, i, faults, n);
    var first := CallsBefore(s.insts[i]);
    StageOnlyChildren(u, i, inst, n, 0, PodUnknown, faults, first);
    SameSpacesSameChildren(s, u, I.Finish(s, i, I.Get, faults, 0).st, i, inst.spec.ref, n);
    forall kind: Kind
      ensures ObjectKey(kind, s.names.child(kind, i.name)) in I.Finish(s, i, I.Get, faults, 0).st.spaces[n].objects <==>
              || ObjectKey(kind, s.names.child(kind, i.name)) in s.spaces[n].objects
              || (CallsFor(inst.spec, kind)
                  && forall c :: first <= c <= first + Calls(inst.spec, 0, Stage(kind)) ==> !faults(c))
    {
      StageExactly(u, i, inst, n, 0, PodUnknown, faults, first, kind);
    }
  }

  lemma SameSpacesSameChildren(s: Store, u: Store, t: Store, i: Key, ref: string, n: string)
    requires u.names == s.names && u.spaces == s.spaces && OnlyChildren(u, t, i, ref, n)
    ensures OnlyChildren(s, t, i, ref, n) && n in t.spaces
  {
  }

  // ----- verdicts and reports ------------------------------------------------------------------------

  /** Past the read of the parent, only the wait for it asks for a delay. */
  lemma {:induction false} AsksForNothing(s: Store, i: Key, p: I.Pass, faults: nat -> bool, calls: nat)
    requires I.Cleans(p) || p.AddFinalizer? || p.Place? || p.WriteStatus? || p.WriteFailed?
    ensures var v := I.Finish(s, i, p, faults, calls).verdict; v == I.Done(0) || v == I.Err
    decreases I.Rank(p)
  {
    hide I.Finish, I.ObservedStatus, I.FailedStatus, I.Wanted, Perform;
    Unfold(s, i, p, faults, calls);
    var out := I.Call(s, i, p, faults(calls));
    if out.then_.Next? {
      AsksForNothing(if out.write == Nothing then s else Perform(s, out.write), i, out.then_.pass, faults,
                     if I.Silent(p) then calls else calls + 1);
    }
  }

  /** The InstanceLab has to wait: its parent is not stored, or does not say Running. */
  ghost predicate MustWait(s: Store, i: Key, faults: nat -> bool)
  {
    && i in s.insts && !s.insts[i].deleting && s.insts[i].finalizer && !faults(0) && !faults(1)
    && var k := Key(i.origin, s.insts[i].spec.ref);
       k !in s.labs || s.labs[k].status.phase != Running
  }

  /**
   For every store and every way the calls can fail: a reconcile asks for another look in five
   seconds exactly if the reads go through and the parent of a live InstanceLab is not Running.
   */
  lemma WaitsExactly(s: Store, i: Key, faults: nat -> bool)
    ensures I.Finish(s, i, I.Get, faults, 0).verdict == I.Done(5_000_000_000) <==> MustWait(s, i, faults)
  {
    hide I.Finish;
    Unfold(s, i, I.Get, faults, 0);
    if !faults(0) && i in s.insts {
      var inst := s.insts[i];
      if inst.deleting {
        if inst.finalizer { AsksForNothing(s, i, I.FindCleanupTarget(inst), faults, 1); }
      } else if !inst.finalizer {
        AsksForNothing(s, i, I.AddFinalizer(inst), faults, 1);
      } else {
        ParentDecides(s, i, faults);
      }
    }
  }

  lemma ParentDecides(s: Store, i: Key, faults: nat -> bool)
    requires i in s.insts && !s.insts[i].deleting && s.insts[i].finalizer && !faults(0)
    ensures I.Finish(s, i, I.GetParent(s.insts[i]), faults, 1).verdict == I.Done(5_000_000_000)
            <==> MustWait(s, i, faults)
  {
    hide I.Finish, I.PendingStatus;
    var inst := s.insts[i];
    var k := I.ParentKey(i, inst);
    Unfold(s, i, I.GetParent(inst), faults, 1);
    if !faults(1) {
      if k in s.labs {
        var parent := s.labs[k];
        AtOwner(s, i, inst, parent, faults, 2);
        var ok := I.Ownable(inst) && !faults(2);
        var u := if ok then Perform(s, UpdateInst(i, I.Owned(inst, parent))) else s;
        var held := if ok then I.Owned(inst, parent) else inst;
        var calls := if I.Ownable(inst) then 3 else 2;
        if parent.status.phase == Running {
          AsksForNothing(u, i, I.Gate(s, held, parent), faults, calls);
        } else {
          Unfold(u, i, I.WritePending(held), faults, calls);
        }
      } else {
        Unfold(s, i, I.WritePending(inst), faults, 2);
      }
    }
  }

  /** The report that the pass waits, if its status write goes through: nothing else is done. */
  lemma WaitingTells(s: Store, i: Key, faults: nat -> bool)
    requires MustWait(s, i, faults)
    requires var inst := s.insts[i];
             !faults(if Key(i.origin, inst.spec.ref) in s.labs then CallsBefore(inst) else 2)
    ensures var t := I.Finish(s, i, I.Get, faults, 0).st;
            && t.spaces == s.spaces && t.labs == s.labs && i in t.insts && t.insts[i].status.phase == Pending
            && var c := Lookup(t.insts[i].status.conditions, "WaitingForCluster");
               && c.Some? && !c.value.status && c.value.reason == "ParentNotReady"
               && c.value.message == "Waiting for parent ClusterLab " + s.insts[i].spec.ref + " to enter Running phase"
  {
    hide I.Finish, I.PendingStatus, Lookup;
    var inst := s.insts[i];
    var k := I.ParentKey(i, inst);
    Unfold(s, i, I.Get, faults, 0);
    Unfold(s, i, I.GetParent(inst), faults, 1);
    if k in s.labs {
      var parent := s.labs[k];
      AtOwner(s, i, inst, parent, faults, 2);
      var ok := I.Ownable(inst) && !faults(2);
      var u := if ok then Perform(s, UpdateInst(i, I.Owned(inst, parent))) else s;
      WaitEnds(u, i, if ok then I.Owned(inst, parent) else inst, faults, CallsBefore(inst));
    } else {
      WaitEnds(s, i, inst, faults, 2);
    }
    PendingTells(inst.status, inst.spec.ref, s.now);
  }

  lemma WaitEnds(s: Store, i: Key, inst: InstanceLab, faults: nat -> bool, calls: nat)
    requires CurrentInst(s, i, inst) && !inst.deleting && !faults(calls)
    ensures var t := I.Finish(s, i, I.WritePending(inst), faults, calls).st;
            && t.spaces == s.spaces && t.labs == s.labs && i in t.insts
            && t.insts[i] == inst.(status := I.PendingStatus(inst.status, inst.spec.ref, s.now))
  {
    hide I.PendingStatus;
    Unfold(s, i, I.WritePending(inst), faults, calls);
  }

  lemma PendingTells(was: InstanceStatus, ref: string, now: int)
    ensures var status := I.PendingStatus(was, ref, now);
            && status.phase == Pending
            && var c := Lookup(status.conditions, "WaitingForCluster");
               && c.Some? && !c.value.status && c.value.reason == "ParentNotReady"
               && c.value.message == "Waiting for parent ClusterLab " + ref + " to enter Running phase"
  {
    SetLookup(was.conditions, Condition("WaitingForCluster", false, "ParentNotReady", I.WaitingMessage(ref), now),
              "WaitingForCluster");
  }

  lemma FailedTells(was: InstanceStatus, reason: string, now: int)
    ensures var status := I.FailedStatus(was, reason, now);
            && status.phase == Failed
            && var c := Lookup(status.conditions, "Ready"); c.Some? && !c.value.status && c.value.reason == reason
  {
    SetLookup(was.conditions, Condition("Ready", false, reason, reason, now), "Ready");
  }

  /** The reason a refused child is reported with. */
  function Reason(kind: Kind): string
  {
    match kind
    case Pvc => "PVCError" case Pod => "PodError" case Service => "ServiceError" case Ingress => "IngressError"
  }

  /** From a stage on: the call for this child is the first one that fails, and the one after it goes through. */
  ghost predicate FirstRefused(spec: InstanceSpec, stage: nat, kind: Kind, faults: nat -> bool, calls: nat)
  {
    && stage <= Stage(kind) && CallsFor(spec, kind)
    && var at := calls + Calls(spec, stage, Stage(kind));
       faults(at) && !faults(at + 1) && forall c :: calls <= c < at ==> !faults(c)
  }

  lemma FirstRefusedStep(spec: InstanceSpec, stage: nat, kind: Kind, faults: nat -> bool, calls: nat)
    requires FirstRefused(spec, stage, kind, faults, calls)
    ensures if kind == ORDER[stage] then faults(calls) && !faults(calls + 1)
            else if CallsFor(spec, ORDER[stage]) then !faults(calls) && FirstRefused(spec, stage + 1, kind, faults, calls + 1)
            else FirstRefused(spec, stage + 1, kind, faults, calls)
  {
    hide CallsFor;
  }

  lemma {:induction false} StageRefuses(s: Store, i: Key, inst: InstanceLab, n: string, stage: nat, seen: PodPhase,
                                        faults: nat -> bool, calls: nat, kind: Kind)
    requires stage < 4 && n in s.spaces && !s.spaces[n].terminating
    requires CurrentInst(s, i, inst) && !inst.deleting && FirstRefused(inst.spec, stage, kind, faults, calls)
    ensures var f := I.Finish(s, i, I.Place(inst, n, stage, seen), faults, calls);
            && f.verdict == I.Err && i in f.st.insts
            && f.st.insts[i] == inst.(status := I.FailedStatus(inst.status, Reason(kind), s.now))
    decreases 4 - stage
  {
    FirstRefusedStep(inst.spec, stage, kind, faults, calls);
    hide I.Finish, I.Wanted, ApplyWorkload, Perform, CallsFor, I.FailedStatus, Calls;
    var at := ORDER[stage];
    CallsForIsWanted(inst.spec, stage);
    AtPlace(s, i, inst, n, stage, seen, faults, calls);
    if at == kind {
      RefusedEnds(s, i, inst, kind, faults, calls + 1);
    } else if !CallsFor(inst.spec, at) {
      StageRefuses(s, i, inst, n, stage + 1, seen, faults, calls, kind);
    } else {
      var o := I.Child(s, i, at);
      AppliedAdds(s, i, inst, n, at);
      var u := Perform(s, ApplyWorkload(s, n, o, i, I.ParentKey(i, inst)));
      StageRefuses(u, i, inst, n, stage + 1, if at == Pod then PhaseAt(s, n, o) else seen, faults, calls + 1, kind);
    }
  }

  lemma RefusedEnds(s: Store, i: Key, inst: InstanceLab, kind: Kind, faults: nat -> bool, calls: nat)
    requires CurrentInst(s, i, inst) && !inst.deleting && !faults(calls)
    ensures var f := I.Finish(s, i, I.WriteFailed(inst, I.FailReason(kind)), faults, calls);
            && f.verdict == I.Err && i in f.st.insts
            && f.st.insts[i] == inst.(status := I.FailedStatus(inst.status, Reason(kind), s.now))
  {
    hide I.FailedStatus;
    Unfold(s, i, I.WriteFailed(inst, I.FailReason(kind)), faults, calls);
  }

  /**
   The first child whose call fails: the reconcile ends in an error, and if the status write goes
   through, the phase is Failed and Ready is false for the reason of that child.
   */
  lemma RefusalTells(s: Store, i: Key, faults: nat -> bool, n: string, kind: Kind)
    requires Open(s, i, faults, n) && n in s.spaces && !s.spaces[n].terminating && CallsFor(s.insts[i].spec, kind)
    requires var first := CallsBefore(s.insts[i]);
             var at := first + Calls(s.insts[i].spec, 0, Stage(kind));
             faults(at) && !faults(at + 1) && forall c :: first <= c < at ==> !faults(c)
    ensures var f := I.Finish(s, i, I.Get, faults, 0);
            && f.verdict == I.Err && i in f.st.insts && f.st.insts[i].status.phase == Failed
            && var c := Lookup(f.st.insts[i].status.conditions, "Ready");
               c.Some? && !c.value.status && c.value.reason == Reason(kind)
  {
    hide I.Finish, CallsFor, I.FailedStatus;
    var u, inst := Opens(s, i, faults, n);
    StageRefuses(u, i, inst, n, 0, PodUnknown, faults, CallsBefore(s.insts[i]), kind);
    FailedTells(inst.status, Reason(kind), u.now);
  }

  /** Without a failure from a stage on: the status is the one that the Pod, as it was found, calls for. */
  lemma {:induction false} StageReports(s: Store, i: Key, inst: InstanceLab, n: string, stage: nat, seen: PodPhase,
                                        faults: nat -> bool, calls: nat)
    requires stage <= 4 && n in s.spaces && !s.spaces[n].terminating && CurrentInst(s, i, inst) && !inst.deleting
    requires forall c :: calls <= c ==> !faults(c)
    ensures var f := I.Finish(s, i, I.Place(inst, n, stage, seen), faults, calls);
            var pod := if stage <= 1 then PhaseAt(s, n, I.Child(s, i, Pod)) else seen;
            && f.verdict == I.Done(0) && i in f.st.insts
            && f.st.insts[i] == inst.(status := I.ObservedStatus(inst.status, pod, s.now))
    decreases 4 - stage
  {
    hide I.Finish, I.Wanted, ApplyWorkload, Perform, CallsFor, I.ObservedStatus;
    if stage == 4 {
      AtEnd(s, i, inst, n, seen, faults, calls);
      ReportEnds(s, i, inst, seen, faults, calls);
    } else {
      var at := ORDER[stage];
      CallsForIsWanted(inst.spec, stage);
      PodIsCalledFor(inst.spec);
      AtPlace(s, i, inst, n, stage, seen, faults, calls);
      if !CallsFor(inst.spec, at) {
        StageReports(s, i, inst, n, stage + 1, seen, faults, calls);
      } else {
        var o := I.Child(s, i, at);
        AppliedAdds(s, i, inst, n, at);
        var u := Perform(s, ApplyWorkload(s, n, o, i, I.ParentKey(i, inst)));
        StageReports(u, i, inst, n, stage + 1, if at == Pod then PhaseAt(s, n, o) else seen, faults, calls + 1);
      }
    }
  }

  lemma PodIsCalledFor(spec: InstanceSpec)
    ensures CallsFor(spec, Pod)
  {
  }

  lemma ReportEnds(s: Store, i: Key, inst: InstanceLab, seen: PodPhase, faults: nat -> bool, calls: nat)
    requires CurrentInst(s, i, inst) && !inst.deleting && !faults(calls)
    ensures var f := I.Finish(s, i, I.WriteStatus(inst, seen), faults, calls);
            && f.verdict == I.Done(0) && i in f.st.insts
            && f.st.insts[i] == inst.(status := I.ObservedStatus(inst.status, seen, s.now))
  {
    hide I.ObservedStatus;
    Unfold(s, i, I.WriteStatus(inst, seen), faults, calls);
  }

  /**
   A reconcile behind the open gate that meets no failure: the parent is the owner, unless another
   ClusterLab is; the phase is that of the Pod as it was found, Running, Failed or Creating, and so
   is the report on the Pod. A Pod just placed is pending, and one of unknown phase not reported on.
   */
  lemma PlacedTells(s: Store, i: Key, faults: nat -> bool, n: string)
    requires Open(s, i, faults, n) && n in s.spaces && !s.spaces[n].terminating && forall c: nat :: !faults(c)
    ensures var f := I.Finish(s, i, I.Get, faults, 0);
            var was := s.insts[i];
            var pod := ObjectKey(Pod, s.names.child(Pod, i.name));
            var there := pod in s.spaces[n].objects;
            && f.verdict == I.Done(0) && i in f.st.insts
            && f.st.insts[i].owner == OwnerAfter(was, s.labs[Key(i.origin, was.spec.ref)], false).owner
            && (f.st.insts[i].status.phase == Running <==> there && s.spaces[n].objects[pod].phase == PodRunning)
            && (f.st.insts[i].status.phase == Failed <==> there && s.spaces[n].objects[pod].phase == PodFailed)
            && (f.st.insts[i].status.phase == Creating <==>
                  !there || s.spaces[n].objects[pod].phase == PodPending || s.spaces[n].objects[pod].phase == PodUnknown)
            && PodReported(was.status, f.st.insts[i].status, if there then s.spaces[n].objects[pod].phase else PodPending)
  {
    hide I.Finish, I.ObservedStatus, PodReported;
    var u, inst := Opens(s, i, faults, n);
    StageReports(u, i, inst, n, 0, PodUnknown, faults, CallsBefore(s.insts[i]));
    Observes(inst.status, PhaseAt(u, n, I.Child(u, i, Pod)), u.now);
  }

  ghost predicate Says(c: Option<Condition>, status: bool, reason: string, message: string)
  {
    c.Some? && c.value.status == status && c.value.reason == reason && c.value.message == message
  }

  /** The reports on a Pod of this phase. */
  ghost predicate PodReported(was: InstanceStatus, status: InstanceStatus, seen: PodPhase)
  {
    var pod := Lookup(status.conditions, "PodReady");
    var ready := Lookup(status.conditions, "Ready");
    && (match seen
        case PodRunning => Says(pod, true, "ContainerRunning", "Sysbox VM instance is running and responsive")
        case PodPending => Says(pod, false, "PodPending", "Waiting for K8s scheduler and volume mounting")
        case PodFailed => Says(pod, false, "PodFailed", "Sysbox VM Pod execution failed")
        case PodUnknown => pod == Lookup(was.conditions, "PodReady"))
    && if seen.PodRunning? then Says(ready, true, "InstanceReady", "InstanceLab is ready for student connectivity")
       else Says(ready, false, "InstanceProvisioning", "InstanceLab is currently being provisioned")
  }

  lemma Observes(was: InstanceStatus, seen: PodPhase, now: int)
    ensures var status := I.ObservedStatus(was, seen, now);
            && status.phase == (match seen case PodRunning => Running case PodFailed => Failed case _ => Creating)
            && PodReported(was, status, seen)
  {
    var pod := match seen
      case PodRunning => Condition("PodReady", true, "ContainerRunning", I.VM_RUNNING, now)
      case PodPending => Condition("PodReady", false, "PodPending", I.VM_PENDING, now)
      case PodFailed => Condition("PodReady", false, "PodFailed", I.VM_FAILED, now)
      case PodUnknown => Condition("PodReady", false, "", "", now);
    var ready := if seen.PodRunning? then Condition("Ready", true, "InstanceReady", I.INSTANCE_READY, now)
                 else Condition("Ready", false, "InstanceProvisioning", I.INSTANCE_PROVISIONING, now);
    var c1 := if seen.PodUnknown? then was.conditions else Set(was.conditions, pod);
    assert |"PodReady"| == 8 && |"Ready"| == 5;
    hide Set, Lookup;
    SetLookup(was.conditions, pod, "PodReady");
    SetLookup(c1, ready, "PodReady");
    SetLookup(c1, ready, "Ready");
  }
}
