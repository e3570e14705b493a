/**
 The same for an InstanceLab: with everything else still, at most two of any number of
 passes that meet no failure change the store, though each pass reports conditions with a
 fresh time and applies every child again.
 */
module InstanceSettling {
  import opened Conditions
  import opened LabStore
  import opened InstanceLabReconciler
  import I = InstanceLabController

  const NONE: nat -> bool := _ => false

  /** The store after a pass that meets no failure. */
  function Pass(s: Store, i: Key): Store
  {
    I.Finish(s, i, I.Get, NONE, 0).st
  }

  /** Passes change nothing, whatever the time. */
  ghost predicate Steady(s: Store, i: Key)
  {
    forall later :: Pass(s.(now := later), i) == s.(now := later)
  }

  /** How many more passes can change something. */
  ghost function Work(s: Store, i: Key): nat
  {
    if i !in s.insts then 0
    else
      var inst := s.insts[i];
      if inst.deleting then if inst.finalizer then 1 else 0
      else if !inst.finalizer then 2
      else if Steady(s, i) then 0 else 1
  }

  // ----- reports made again ---------------------------------------------------------------

  lemma PendingSettles(was: InstanceStatus, ref: string, now: int, later: int)
    ensures var once := I.PendingStatus(was, ref, now); I.PendingStatus(once, ref, later) == once
  {
    SetIdempotent(was.conditions, Condition("WaitingForCluster", false, "ParentNotReady", I.WaitingMessage(ref), now), later);
  }

  lemma FailedSettles(was: InstanceStatus, reason: string, now: int, later: int)
    ensures var once := I.FailedStatus(was, reason, now); I.FailedStatus(once, reason, later) == once
  {
    SetIdempotent(was.conditions, Condition("Ready", false, reason, reason, now), later);
  }

  lemma TwoReportsSettle(cs: seq<Condition>, a: Condition, b: Condition, later: int)
    requires a.kind != b.kind
    ensures var once := Set(Set(cs, a), b);
            Set(Set(once, a.(since := later)), b.(since := later)) == once
  {
    var c1 := Set(cs, a);
    var c2 := Set(c1, b);
    SetLookup(cs, a, a.kind);
    LookupFinds(cs, a.kind);
    SetLookup(c1, b, a.kind);
    SetLookup(c1, b, b.kind);
    LookupFinds(c1, b.kind);
    SetNoChange(c2, a.(since := later));
    SetNoChange(c2, b.(since := later));
  }

  lemma ObservedSettles(was: InstanceStatus, seen: PodPhase, now: int, later: int)
    ensures var once := I.ObservedStatus(was, seen, now); I.ObservedStatus(once, seen, later) == once
  {
    var ready := if seen.PodRunning? then Condition("Ready", true, "InstanceReady", I.INSTANCE_READY, now)
                 else Condition("Ready", false, "InstanceProvisioning", I.INSTANCE_PROVISIONING, now);
    match seen {
      case PodRunning =>
        TwoReportsSettle(was.conditions, Condition("PodReady", true, "ContainerRunning", I.VM_RUNNING, now), ready, later);
      case PodPending =>
        TwoReportsSettle(was.conditions, Condition("PodReady", false, "PodPending", I.VM_PENDING, now), ready, later);
      case PodFailed =>
        TwoReportsSettle(was.conditions, Condition("PodReady", false, "PodFailed", I.VM_FAILED, now), ready, later);
      case PodUnknown => SetIdempotent(was.conditions, ready, later);
    }
  }

  // ----- a pass in closed form ---------------------------------------------------------------

  function Reported(s: Store, i: Key, inst: InstanceLab, status: InstanceStatus): Store
  {
    Perform(s, PutInst(i, inst.(status := status)))
  }

  function Applied(s: Store, i: Key, inst: InstanceLab, target: string, kind: Kind): Store
    requires AcceptsWorkload(s, target, I.Child(s, i, kind))
  {
    Perform(s, ApplyWorkload(s, target, I.Child(s, i, kind), i, I.ParentKey(i, inst)))
  }

  /** The Pod phase a pass has seen after it applied a child of this kind. */
  function Seen(s: Store, i: Key, target: string, kind: Kind, seen: PodPhase): PodPhase
  {
    if kind == Pod then PhaseAt(s, target, I.Child(s, i, Pod)) else seen
  }

  function Placed(s: Store, i: Key, inst: InstanceLab, target: string, stage: nat, seen: PodPhase): Store
    decreases 4 - stage
  {
    if stage >= 4 then Reported(s, i, inst, I.ObservedStatus(inst.status, seen, s.now))
    else
      var kind := I.PLACE_ORDER[stage];
      if !I.Wanted(inst.spec, kind) then Placed(s, i, inst, target, stage + 1, seen)
      else if !AcceptsWorkload(s, target, I.Child(s, i, kind)) then
        Reported(s, i, inst, I.FailedStatus(inst.status, I.FailReason(kind), s.now))
      else Placed(Applied(s, i, inst, target, kind), i, inst, target, stage + 1, Seen(s, i, target, kind, seen))
  }

  /** From the gate on. */
  function Gated(s: Store, i: Key, inst: InstanceLab, parent: ClusterLab): Store
  {
    if parent.status.phase == Running then
      Placed(s, i, inst, I.TargetOf(s, parent, inst.spec.ref), 0, PodUnknown)
    else Reported(s, i, inst, I.PendingStatus(inst.status, inst.spec.ref, s.now))
  }

  /** The owner reference a pass leaves. */
  function Owner(inst: InstanceLab, parent: ClusterLab): InstanceLab
  {
    if I.Ownable(inst) then I.Owned(inst, parent) else inst
  }

  lemma {:induction false} RunsPlaces(s: Store, i: Key, inst: InstanceLab, target: string, stage: nat,
                                      seen: PodPhase, calls: nat)
    requires CurrentInst(s, i, inst) && !inst.deleting && stage <= 4
    ensures I.Finish(s, i, I.Place(inst, target, stage, seen), NONE, calls).st
            == Placed(s, i, inst, target, stage, seen)
    decreases 4 - stage
  {
    hide I.Finish, I.FailedStatus, I.ObservedStatus, I.Wanted;
    if stage == 4 {
      AtEnd(s, i, inst, target, seen, NONE, calls);
      Unfold(s, i, I.WriteStatus(inst, seen), NONE, calls);
    } else {
      var kind := I.PLACE_ORDER[stage];
      AtPlace(s, i, inst, target, stage, seen, NONE, calls);
      if !I.Wanted(inst.spec, kind) {
        RunsPlaces(s, i, inst, target, stage + 1, seen, calls);
      } else if AcceptsWorkload(s, target, I.Child(s, i, kind)) {
        RunsPlaces(Applied(s, i, inst, target, kind), i, inst, target, stage + 1,
                   Seen(s, i, target, kind, seen), calls + 1);
      } else {
        Unfold(s, i, I.WriteFailed(inst, I.FailReason(kind)), NONE, calls + 1);
      }
    }
  }

  lemma RunsGate(s: Store, r: Store, i: Key, inst: InstanceLab, parent: ClusterLab, calls: nat)
    requires CurrentInst(s, i, inst) && !inst.deleting && r.names == s.names
    ensures I.Finish(s, i, I.Gate(r, inst, parent), NONE, calls).st == Gated(s, i, inst, parent)
  {
    hide I.Finish, I.PendingStatus, Placed;
    if parent.status.phase == Running {
      RunsPlaces(s, i, inst, I.TargetOf(s, parent, inst.spec.ref), 0, PodUnknown, calls);
    } else {
      Unfold(s, i, I.WritePending(inst), NONE, calls);
    }
  }

  /** A pass over a live InstanceLab with the finalizer. */
  lemma LivePass(s: Store, i: Key)
    requires i in s.insts && !s.insts[i].deleting && s.insts[i].finalizer
    ensures var inst := s.insts[i];
            var k := I.ParentKey(i, inst);
            Pass(s, i) ==
            if k !in s.labs then Reported(s, i, inst, I.PendingStatus(inst.status, inst.spec.ref, s.now))
            else Gated(Perform(s, PutInst(i, Owner(inst, s.labs[k]))), i, Owner(inst, s.labs[k]), s.labs[k])
  {
    hide I.Finish, I.PendingStatus, Gated, I.Gate;
    var inst := s.insts[i];
    var k := I.ParentKey(i, inst);
    Unfold(s, i, I.Get, NONE, 0);
    Unfold(s, i, I.GetParent(inst), NONE, 1);
    if k in s.labs {
      var parent := s.labs[k];
      var owned := Owner(inst, parent);
      var t := Perform(s, PutInst(i, owned));
      AtOwner(s, i, inst, parent, NONE, 2);
      RunsGate(t, s, i, owned, parent, if I.Ownable(inst) then 3 else 2);
    } else {
      Unfold(s, i, I.WritePending(inst), NONE, 2);
    }
  }

  // ----- the second pass ------------------------------------------------------------------------

  /** Everything a pass would write from this stage on is already there. */
  ghost predicate PlacedDone(s: Store, i: Key, inst: InstanceLab, target: string, stage: nat, seen: PodPhase)
    decreases 4 - stage
  {
    if stage >= 4 then forall later :: I.ObservedStatus(inst.status, seen, later) == inst.status
    else
      var kind := I.PLACE_ORDER[stage];
      var o := I.Child(s, i, kind);
      if !I.Wanted(inst.spec, kind) then PlacedDone(s, i, inst, target, stage + 1, seen)
      else if !AcceptsWorkload(s, target, o) then
        forall later :: I.FailedStatus(inst.status, I.FailReason(kind), later) == inst.status
      else
        && ChildDone(s, i, inst, target, kind)
        && PlacedDone(s, i, inst, target, stage + 1, Seen(s, i, target, kind, seen))
  }

  ghost predicate ChildDone(s: Store, i: Key, inst: InstanceLab, target: string, kind: Kind)
  {
    var o := I.Child(s, i, kind);
    && target in s.spaces && o in s.spaces[target].objects
    && var k := I.ParentKey(i, inst);
       s.spaces[target].objects[o] == Workload(i.name, k.name, s.spaces[target].objects[o].phase, i, k)
  }

  lemma AppliedSame(s: Store, i: Key, inst: InstanceLab, target: string, kind: Kind)
    requires ChildDone(s, i, inst, target, kind)
    ensures Applied(s, i, inst, target, kind) == s
  {
    var o := I.Child(s, i, kind);
    var objects := s.spaces[target].objects;
    assert objects[o := objects[o]] == objects;
    assert s.spaces[target := s.spaces[target]] == s.spaces;
  }

  lemma {:induction false} PlacesStay(s: Store, i: Key, inst: InstanceLab, target: string, stage: nat, seen: PodPhase,
                                      later: int)
    requires CurrentInst(s, i, inst) && PlacedDone(s, i, inst, target, stage, seen)
    ensures Placed(s.(now := later), i, inst, target, stage, seen) == s.(now := later)
    decreases 4 - stage
  {
    hide I.ObservedStatus, I.FailedStatus, I.Wanted;
    var u := s.(now := later);
    if stage < 4 {
      var kind := I.PLACE_ORDER[stage];
      if !I.Wanted(inst.spec, kind) {
        PlacesStay(s, i, inst, target, stage + 1, seen, later);
      } else if AcceptsWorkload(s, target, I.Child(s, i, kind)) {
        hide ChildDone, Applied;
        AppliedSame(u, i, inst, target, kind) by { TimelessChild(s, i, inst, target, kind, later); }
        PlacesStay(s, i, inst, target, stage + 1, Seen(s, i, target, kind, seen), later);
      }
    }
  }

  lemma TimelessChild(s: Store, i: Key, inst: InstanceLab, target: string, kind: Kind, later: int)
    requires ChildDone(s, i, inst, target, kind)
    ensures ChildDone(s.(now := later), i, inst, target, kind)
  {
  }

  /** Children of earlier stages are left as they are. */
  ghost predicate EarlierKept(s: Store, t: Store, i: Key, target: string, stage: nat)
  {
    && t.names == s.names && t.labs == s.labs
    && (target in t.spaces <==> target in s.spaces)
    && (target in s.spaces ==>
          && t.spaces[target].terminating == s.spaces[target].terminating
          && forall j :: 0 <= j < stage && j < 4 ==>
               var o := I.Child(s, i, I.PLACE_ORDER[j]);
               && (o in t.spaces[target].objects <==> o in s.spaces[target].objects)
               && (o in s.spaces[target].objects ==> t.spaces[target].objects[o] == s.spaces[target].objects[o]))
  }

  /** Only the status of the InstanceLab changes. */
  ghost predicate StatusOnly(inst: InstanceLab, t: Store, i: Key)
  {
    i in t.insts && t.insts[i] == inst.(status := t.insts[i].status)
  }

  lemma AppliedKeeps(s: Store, i: Key, inst: InstanceLab, target: string, stage: nat)
    requires stage < 4 && AcceptsWorkload(s, target, I.Child(s, i, I.PLACE_ORDER[stage]))
    ensures var kind := I.PLACE_ORDER[stage];
            var t := Applied(s, i, inst, target, kind);
            && EarlierKept(s, t, i, target, stage) && t.insts == s.insts
            && ChildDone(t, i, inst, target, kind)
            && PhaseAt(t, target, I.Child(s, i, kind)) == PhaseAt(s, target, I.Child(s, i, kind))
  {
  }

  lemma {:induction false} PlacedKeeps(s: Store, i: Key, inst: InstanceLab, target: string, stage: nat, seen: PodPhase)
    requires i in s.insts
    ensures var t := Placed(s, i, inst, target, stage, seen);
            EarlierKept(s, t, i, target, stage) && StatusOnly(inst, t, i)
    decreases 4 - stage
  {
    hide I.ObservedStatus, I.FailedStatus, I.Wanted;
    if stage < 4 {
      var kind := I.PLACE_ORDER[stage];
      if !I.Wanted(inst.spec, kind) {
        hide EarlierKept;
        PlacedKeeps(s, i, inst, target, stage + 1, seen);
        FewerKept(s, s, Placed(s, i, inst, target, stage, seen), i, target, stage);
      } else if AcceptsWorkload(s, target, I.Child(s, i, kind)) {
        hide Applied, EarlierKept;
        AppliedKeeps(s, i, inst, target, stage);
        var u := Applied(s, i, inst, target, kind);
        PlacedKeeps(u, i, inst, target, stage + 1, Seen(s, i, target, kind, seen));
        FewerKept(s, u, Placed(s, i, inst, target, stage, seen), i, target, stage);
      }
    }
  }

  lemma FewerKept(s: Store, u: Store, t: Store, i: Key, target: string, stage: nat)
    requires (u == s || EarlierKept(s, u, i, target, stage)) && EarlierKept(u, t, i, target, stage + 1)
    ensures EarlierKept(s, t, i, target, stage)
  {
  }

  /** The first pass gets everything done. */
  lemma {:induction false} PlacesGetDone(s: Store, i: Key, inst: InstanceLab, target: string, stage: nat, seen: PodPhase)
    requires i in s.insts
    ensures var t := Placed(s, i, inst, target, stage, seen);
            i in t.insts && PlacedDone(t, i, t.insts[i], target, stage, seen)
    decreases 4 - stage
  {
    hide I.ObservedStatus, I.FailedStatus, I.Wanted;
    var t := Placed(s, i, inst, target, stage, seen);
    PlacedKeeps(s, i, inst, target, stage, seen);
    if stage >= 4 {
      forall later ensures I.ObservedStatus(t.insts[i].status, seen, later) == t.insts[i].status {
        ObservedSettles(inst.status, seen, s.now, later);
      }
    } else {
      var kind := I.PLACE_ORDER[stage];
      var o := I.Child(s, i, kind);
      if !I.Wanted(inst.spec, kind) {
        PlacesGetDone(s, i, inst, target, stage + 1, seen);
      } else if AcceptsWorkload(s, target, o) {
        hide Applied;
        AppliedKeeps(s, i, inst, target, stage);
        var u := Applied(s, i, inst, target, kind);
        PlacesGetDone(u, i, inst, target, stage + 1, Seen(s, i, target, kind, seen));
        PlacedKeeps(u, i, inst, target, stage + 1, Seen(s, i, target, kind, seen));
        hide Placed, PlacedDone;
        ChildStays(u, t, i, inst, target, stage);
        PlacedStep(s, t, i, target, stage, seen);
      } else {
        forall later
          ensures I.FailedStatus(t.insts[i].status, I.FailReason(kind), later) == t.insts[i].status
        {
          FailedSettles(inst.status, I.FailReason(kind), s.now, later);
        }
      }
    }
  }

  lemma ChildStays(u: Store, t: Store, i: Key, inst: InstanceLab, target: string, stage: nat)
    requires stage < 4 && ChildDone(u, i, inst, target, I.PLACE_ORDER[stage])
    requires EarlierKept(u, t, i, target, stage + 1) && StatusOnly(inst, t, i)
    ensures ChildDone(t, i, t.insts[i], target, I.PLACE_ORDER[stage])
    ensures var o := I.Child(u, i, I.PLACE_ORDER[stage]);
            I.Child(t, i, I.PLACE_ORDER[stage]) == o && PhaseAt(t, target, o) == PhaseAt(u, target, o)
  {
  }

  lemma PlacedStep(s: Store, t: Store, i: Key, target: string, stage: nat, seen: PodPhase)
    requires stage < 4 && i in t.insts && t.names == s.names
    requires var kind := I.PLACE_ORDER[stage];
             && I.Wanted(t.insts[i].spec, kind) && ChildDone(t, i, t.insts[i], target, kind)
             && PhaseAt(t, target, I.Child(s, i, kind)) == PhaseAt(s, target, I.Child(s, i, kind))
             && PlacedDone(t, i, t.insts[i], target, stage + 1, Seen(s, i, target, kind, seen))
    ensures PlacedDone(t, i, t.insts[i], target, stage, seen)
  {
    hide I.Wanted;
  }

  // ----- passes come to rest ----------------------------------------------------------------------

  lemma PutSame(s: Store, i: Key)
    requires i in s.insts
    ensures Perform(s, PutInst(i, s.insts[i])) == s
  {
  }

  lemma PendingSteady(s: Store, i: Key, inst: InstanceLab)
    requires i in s.insts && !inst.deleting && inst.finalizer
    requires var k := I.ParentKey(i, inst);
             k !in s.labs || (s.labs[k].status.phase != Running && Owner(inst, s.labs[k]) == inst)
    ensures Steady(Reported(s, i, inst, I.PendingStatus(inst.status, inst.spec.ref, s.now)), i)
  {
    var status := I.PendingStatus(inst.status, inst.spec.ref, s.now);
    var t := Reported(s, i, inst, status);
    var stored := inst.(status := status);
    assert t.insts[i] == stored && t.labs == s.labs;
    hide Pass, I.PendingStatus, Perform;
    forall later ensures Pass(t.(now := later), i) == t.(now := later) {
      var u := t.(now := later);
      LivePass(u, i);
      PendingSettles(inst.status, inst.spec.ref, s.now, later);
      PutSame(u, i);
    }
  }

  lemma PlacedSteady(s: Store, i: Key, inst: InstanceLab, target: string)
    requires CurrentInst(s, i, inst) && !inst.deleting && inst.finalizer
    requires var k := I.ParentKey(i, inst);
             && k in s.labs && s.labs[k].status.phase == Running && Owner(inst, s.labs[k]) == inst
             && target == I.TargetOf(s, s.labs[k], k.name)
    ensures Steady(Placed(s, i, inst, target, 0, PodUnknown), i)
  {
    var t := Placed(s, i, inst, target, 0, PodUnknown);
    PlacesGetDone(s, i, inst, target, 0, PodUnknown);
    PlacedKeeps(s, i, inst, target, 0, PodUnknown);
    hide Pass, Perform, Placed, PlacedDone;
    forall later ensures Pass(t.(now := later), i) == t.(now := later) {
      var u := t.(now := later);
      LivePass(u, i);
      PutSame(u, i);
      PlacesStay(t, i, t.insts[i], target, 0, PodUnknown, later);
    }
  }

  lemma OwnedOnce(inst: InstanceLab, parent: ClusterLab)
    ensures Owner(Owner(inst, parent), parent) == Owner(inst, parent)
  {
  }

  /** A pass over a live InstanceLab with the finalizer leaves it steady. */
  lemma LiveSettles(s: Store, i: Key)
    requires i in s.insts && !s.insts[i].deleting && s.insts[i].finalizer
    ensures Steady(Pass(s, i), i)
  {
    hide Pass, Placed, I.PendingStatus, Steady;
    var inst := s.insts[i];
    var k := I.ParentKey(i, inst);
    LivePass(s, i);
    if k !in s.labs {
      PendingSteady(s, i, inst);
    } else {
      var owned := Owner(inst, s.labs[k]);
      var t := Perform(s, PutInst(i, owned));
      OwnedOnce(inst, s.labs[k]);
      assert CurrentInst(t, i, owned) && t.labs == s.labs && t.names == s.names;
      hide Reported, Perform;
      if s.labs[k].status.phase == Running {
        PlacedSteady(t, i, owned, I.TargetOf(t, s.labs[k], k.name));
      } else {
        PendingSteady(t, i, owned);
      }
    }
  }

  lemma {:induction false} BulkDeletesKeep(s: Store, i: Key, inst: InstanceLab, target: string, stage: nat, calls: nat)
    requires stage < 4 && CurrentInst(s, i, inst) && inst.deleting
    ensures var t := I.Finish(s, i, I.BulkDelete(inst, target, stage), NONE, calls).st;
            i !in t.insts
    decreases 4 - stage
  {
    hide I.Finish;
    AtBulk(s, i, inst, target, stage, NONE, calls);
    var t := Perform(s, DeleteAllOf(s, target, I.CLEANUP_ORDER[stage], i.name));
    if stage == 3 {
      Unfold(t, i, I.RemoveFinalizer(inst), NONE, calls + 1);
    } else {
      BulkDeletesKeep(t, i, inst, target, stage + 1, calls + 1);
    }
  }

  lemma DeletingPass(s: Store, i: Key)
    requires i in s.insts && s.insts[i].deleting && s.insts[i].finalizer
    ensures i !in Pass(s, i).insts
  {
    hide I.Finish;
    var inst := s.insts[i];
    var k := I.ParentKey(i, inst);
    Unfold(s, i, I.Get, NONE, 0);
    Unfold(s, i, I.FindCleanupTarget(inst), NONE, 1);
    var target := if k !in s.labs then s.Target(k.name) else I.TargetOf(s, s.labs[k], k.name);
    BulkDeletesKeep(s, i, inst, target, 0, 2);
  }

  lemma NothingStored(s: Store, i: Key)
    requires i !in s.insts || (s.insts[i].deleting && !s.insts[i].finalizer)
    ensures Pass(s, i) == s
  {
    hide I.Finish, I.Call;
    Unfold(s, i, I.Get, NONE, 0);
    NothingToGet(s, i);
  }

  lemma NothingToGet(s: Store, i: Key)
    requires i !in s.insts || (s.insts[i].deleting && !s.insts[i].finalizer)
    ensures I.Call(s, i, I.Get, false) == I.Outcome(Nothing, I.Done(0))
  {
  }

  lemma AddsFinalizer(s: Store, i: Key)
    requires i in s.insts && !s.insts[i].deleting && !s.insts[i].finalizer
    ensures Pass(s, i) == Perform(s, PutInst(i, s.insts[i].(finalizer := true)))
  {
    hide I.Finish;
    Unfold(s, i, I.Get, NONE, 0);
    Unfold(s, i, I.AddFinalizer(s.insts[i]), NONE, 1);
  }

  /** A pass that meets no failure changes nothing, or leaves less to do. */
  lemma PassSettles(s: Store, i: Key)
    ensures Pass(s, i) == s || Work(Pass(s, i), i) < Work(s, i)
  {
    hide Pass, Steady;
    if i !in s.insts || (s.insts[i].deleting && !s.insts[i].finalizer) {
      NothingStored(s, i);
    } else if s.insts[i].deleting {
      DeletingPass(s, i);
    } else if !s.insts[i].finalizer {
      AddsFinalizer(s, i);
    } else {
      LiveSettles(s, i);
      LiveStays(s, i);
      if Steady(s, i) { SteadyNow(s, i); }
    }
  }

  lemma LiveStays(s: Store, i: Key)
    requires i in s.insts && !s.insts[i].deleting && s.insts[i].finalizer
    ensures var t := Pass(s, i); i in t.insts && !t.insts[i].deleting && t.insts[i].finalizer
  {
    hide Pass, Placed, I.PendingStatus, EarlierKept;
    var inst := s.insts[i];
    var k := I.ParentKey(i, inst);
    LivePass(s, i);
    if k in s.labs {
      var owned := Owner(inst, s.labs[k]);
      var t := Perform(s, PutInst(i, owned));
      PlacedKeeps(t, i, owned, I.TargetOf(t, s.labs[k], k.name), 0, PodUnknown);
    }
  }

  lemma SteadyNow(s: Store, i: Key)
    requires Steady(s, i)
    ensures Pass(s, i) == s
  {
    hide Pass;
    assert s.(now := s.now) == s;
  }

  lemma TimeSettles(s: Store, i: Key, later: int)
    ensures Work(s.(now := later), i) <= Work(s, i)
  {
    hide Pass;
    if Steady(s, i) {
      var u := s.(now := later);
      forall last ensures Pass(u.(now := last), i) == u.(now := last) {
        assert u.(now := last) == s.(now := last);
      }
    }
  }

  /** Passes with the clock moved on before each; the result counts those that change something. */
  ghost function Changing(s: Store, i: Key, waits: seq<nat>): nat
    decreases |waits|
  {
    if waits == [] then 0
    else
      var u := s.(now := s.now + waits[0]);
      (if Pass(u, i) == u then 0 else 1) + Changing(Pass(u, i), i, waits[1..])
  }

  /** However many passes run, and whenever: at most two of them change anything. */
  lemma {:induction false} PassesSettle(s: Store, i: Key, waits: seq<nat>)
    ensures Changing(s, i, waits) <= Work(s, i) <= 2
    decreases |waits|
  {
    hide Pass, Work;
    WorkBound(s, i);
    if waits != [] {
      var u := s.(now := s.now + waits[0]);
      TimeSettles(s, i, u.now);
      PassSettles(u, i);
      PassesSettle(Pass(u, i), i, waits[1..]);
    }
  }

  lemma WorkBound(s: Store, i: Key)
    ensures Work(s, i) <= 2
  {
  }
}
