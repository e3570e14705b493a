/**
 The work queue of the InstanceLab controller, beside the machine that lets a pass of any key
 start at any time: `Step` does what `Do` does and keeps the queue, which is told of every change
 of an InstanceLab, of every error and of every delay a pass asks for. Nothing else is watched, so
 for an InstanceLab that waits for its ClusterLab the timer is the only thing that brings it back.
 */
module InstanceQueue {
  import opened Prelude
  import Conditions
  import opened LabStore
  import opened LabSystem
  import C = ClusterLabController
  import I = InstanceLabController

  datatype Watched = Watched(sys: System, dirty: set<Key>, timers: map<Key, int>)

  /** A step of the machine, or a timer of an InstanceLab key that rings. */
  datatype Event = Lab(a: Action) | FireInst(i: Key)

  /** The InstanceLabs that differ. */
  function Changed(s: Store, t: Store): set<Key>
  {
    (set i | i in s.insts && (i !in t.insts || t.insts[i] != s.insts[i])) + (set i | i in t.insts && i !in s.insts)
  }

  /** What the end of a pass asks of the queue: an error now, a positive delay later. */
  function Asks(w: Watched, i: Key, then_: I.Then): Watched
  {
    match then_
    case Next(_) => w
    case Done(wait) =>
      if wait <= 0 then w
      else
        var at := w.sys.st.now + wait;
        w.(timers := w.timers[i := if i in w.timers then Min(w.timers[i], at) else at])
    case Err => w.(dirty := w.dirty + {i})
  }

  function Step(w: Watched, e: Event): Watched
  {
    match e
    case FireInst(i) =>
      if i in w.timers && w.timers[i] <= w.sys.st.now then w.(dirty := w.dirty + {i}, timers := w.timers - {i})
      else w
    case Lab(a) =>
      var t := Do(w.sys, a);
      var taken := if a.StartInst? && a.i !in w.sys.ip then w.dirty - {a.i} else w.dirty;
      var u := w.(sys := t, dirty := taken + Changed(w.sys.st, t.st));
      if a.CallInst? && a.i in w.sys.ip then Asks(u, a.i, I.Call(w.sys.st, a.i, w.sys.ip[a.i], a.fault).then_) else u
  }

  function Watch(w: Watched, events: seq<Event>): Watched
    decreases |events|
  {
    if events == [] then w else Watch(Step(w, events[0]), events[1..])
  }

  /** The steps of the machine among the events. */
  function Steps(events: seq<Event>): seq<Action>
  {
    if events == [] then []
    else if events[0].Lab? then [events[0].a] + Steps(events[1..]) else Steps(events[1..])
  }

  /** The queue is beside the machine: what is watched is a run of it, so what holds in every run holds here. */
  lemma {:induction false} WatchIsRun(w: Watched, events: seq<Event>)
    ensures Watch(w, events).sys == Run(w.sys, Steps(events))
    decreases |events|
  {
    hide Do, Changed;
    if events != [] {
      WatchIsRun(Step(w, events[0]), events[1..]);
      if events[0].Lab? { RunCons(w.sys, events[0].a, Steps(events[1..])); }
    }
  }

  predicate Fresh(w: Watched) { Initial(w.sys) && w.dirty == {} && w.timers == map[] }

  // ----- what the queue remembers -----------------------------------------------------------------

  /** What a pass in flight holds; while nothing has queued the key again, that is what is stored. */
  ghost predicate PassHolds(s: Store, dirty: set<Key>, i: Key, p: I.Pass)
  {
    && (p.AddFinalizer? ==> !p.inst.deleting && !p.inst.finalizer)
    && (I.Provisions(p) ==> !p.inst.deleting && p.inst.finalizer)
    && (I.Cleans(p) ==> p.inst.deleting && p.inst.finalizer)
    && (!p.Get? && i !in dirty && i in s.insts ==> s.insts[i] == p.inst)
  }

  /** A key at rest: the InstanceLab is live, carries the finalizer, and has a timer while it waits. */
  ghost predicate Rests(s: Store, timers: map<Key, int>, i: Key)
    requires i in s.insts
  {
    var inst := s.insts[i];
    && !inst.deleting && inst.finalizer
    && (inst.status.phase == Pending || inst.status.phase == NoPhase ==>
          i in timers && timers[i] <= s.now + 5_000_000_000)
  }

  ghost predicate Minded(w: Watched, i: Key)
  {
    && (i in w.sys.st.insts && w.sys.st.insts[i].deleting ==> w.sys.st.insts[i].finalizer)
    && (if i in w.sys.ip then PassHolds(w.sys.st, w.dirty, i, w.sys.ip[i])
        else i in w.sys.st.insts && i !in w.dirty ==> Rests(w.sys.st, w.timers, i))
  }

  ghost predicate AllMinded(w: Watched) { forall i: Key :: Minded(w, i) }

  // ----- every step -------------------------------------------------------------------------------

  /** What is stored under a key, and what a write makes of it. */
  ghost predicate SameInst(s: Store, t: Store, i: Key)
  {
    (i in t.insts <==> i in s.insts) && (i in s.insts ==> t.insts[i] == s.insts[i])
  }

  lemma ChangedTells(s: Store, t: Store, i: Key)
    ensures i !in Changed(s, t) <==> SameInst(s, t, i)
  {
  }

  /** A step that is none of the key's own pass: the key is queued if the object changes. */
  lemma OtherStep(w: Watched, a: Action, i: Key)
    requires Minded(w, i) && Do(w.sys, a).st.now >= w.sys.st.now
    requires i in Do(w.sys, a).ip <==> i in w.sys.ip
    requires i in w.sys.ip ==> Do(w.sys, a).ip[i] == w.sys.ip[i]
    requires !(a.StartInst? && a.i == i && i !in w.sys.ip) && !(a.CallInst? && a.i == i && i in w.sys.ip)
    requires var t := Do(w.sys, a).st;
             i in t.insts && t.insts[i].deleting ==> t.insts[i].finalizer
    ensures Minded(Step(w, Lab(a)), i)
  {
    ChangedTells(w.sys.st, Do(w.sys, a).st, i);
    hide Do, Changed, I.Call;
  }

  /** No write stores an InstanceLab under deletion without its finalizer. */
  ghost predicate KeepsFinalizer(w: Write)
  {
    w.PutInst? ==> w.inst.deleting ==> w.inst.finalizer
  }

  lemma WriteKeepsFinalizer(s: Store, w: Write, i: Key)
    requires KeepsFinalizer(w) && (i in s.insts && s.insts[i].deleting ==> s.insts[i].finalizer)
    ensures var t := Perform(s, w); i in t.insts && t.insts[i].deleting ==> t.insts[i].finalizer
  {
  }

  lemma OutsideKeepsFinalizer(s: Store, a: Action)
    requires forall i :: i in s.insts && s.insts[i].deleting ==> s.insts[i].finalizer
    ensures KeepsFinalizer(OutsideWrite(s, a))
  {
  }

  lemma ClusterKeepsFinalizer(s: Store, k: Key, p: C.Pass, fault: bool)
    ensures KeepsFinalizer(C.Call(s, k, p, fault).write)
  {
  }

  lemma InstKeepsFinalizer(s: Store, dirty: set<Key>, i: Key, p: I.Pass, fault: bool)
    requires PassHolds(s, dirty, i, p)
    ensures KeepsFinalizer(I.Call(s, i, p, fault).write)
  {
    hide I.ObservedStatus, I.PendingStatus, I.FailedStatus, I.Wanted;
  }

  /** A call after which the key's own pass goes on. */
  lemma OwnNext(s: Store, dirty: set<Key>, i: Key, p: I.Pass, fault: bool)
    requires PassHolds(s, dirty, i, p) && (i in s.insts && s.insts[i].deleting ==> s.insts[i].finalizer)
    ensures var out := I.Call(s, i, p, fault);
            var t := Perform(s, out.write);
            out.then_.Next? ==> PassHolds(t, dirty + Changed(s, t), i, out.then_.pass)
  {
    var out := I.Call(s, i, p, fault);
    ChangedTells(s, Perform(s, out.write), i);
    hide Changed, I.ObservedStatus, I.PendingStatus, I.FailedStatus, I.Wanted;
    match p {
      case Get => case FindCleanupTarget(_) => case BulkDelete(_, _, _) => case GetParent(_) =>
      case SetOwner(_, _) => case Place(_, _, _, _) =>
      case _ =>
    }
  }

  /** The last call of the key's own pass: an error, a change, or a key that may rest. */
  lemma OwnLast(s: Store, dirty: set<Key>, i: Key, p: I.Pass, fault: bool)
    requires PassHolds(s, dirty, i, p) && (i in s.insts && s.insts[i].deleting ==> s.insts[i].finalizer)
    ensures var out := I.Call(s, i, p, fault);
            var t := Perform(s, out.write);
            out.then_.Done? && i in t.insts && i !in dirty + Changed(s, t) ==>
              && !t.insts[i].deleting && t.insts[i].finalizer
              && (t.insts[i].status.phase == Pending || t.insts[i].status.phase == NoPhase ==>
                    0 < out.then_.wait <= 5_000_000_000)
  {
    var out := I.Call(s, i, p, fault);
    ChangedTells(s, Perform(s, out.write), i);
    hide Changed, I.PendingStatus, I.FailedStatus, I.Wanted, Conditions.Set;
    match p {
      case Get => case AddFinalizer(_) => case RemoveFinalizer(_) => case WritePending(_) => case WriteStatus(_, _) =>
      case _ =>
    }
  }

  /** A call of the key's own pass. */
  lemma OwnStep(w: Watched, i: Key, fault: bool)
    requires Minded(w, i) && i in w.sys.ip
    ensures Minded(Step(w, Lab(CallInst(i, fault))), i)
  {
    var s := w.sys.st;
    var p := w.sys.ip[i];
    InstKeepsFinalizer(s, w.dirty, i, p, fault);
    WriteKeepsFinalizer(s, I.Call(s, i, p, fault).write, i);
    OwnNext(s, w.dirty, i, p, fault);
    OwnLast(s, w.dirty, i, p, fault);
    NowStays(s, I.Call(s, i, p, fault).write);
    hide I.Call, Perform, Changed, PassHolds;
  }

  lemma NowStays(s: Store, w: Write)
    ensures Perform(s, w).now == s.now
  {
  }

  /** Stored InstanceLabs under deletion carry the finalizer after every step. */
  lemma StepKeepsFinalizers(w: Watched, a: Action)
    requires AllMinded(w)
    ensures var t := Do(w.sys, a).st; forall i :: i in t.insts && t.insts[i].deleting ==> t.insts[i].finalizer
  {
    var t := Do(w.sys, a);
    var s := w.sys.st;
    forall i | i in s.insts && s.insts[i].deleting ensures s.insts[i].finalizer {
      assert Minded(w, i);
    }
    hide Perform, C.Call, I.Call, OutsideWrite, KeepsFinalizer, SettleCluster, Minded;
    match a {
      case CallCluster(k, fault) =>
        if k in w.sys.cp {
          var out := C.Call(s, k, w.sys.cp[k], fault);
          ClusterKeepsFinalizer(s, k, w.sys.cp[k], fault);
          SettleQueue(w.sys, k, out);
          forall i ensures i in t.st.insts && t.st.insts[i].deleting ==> t.st.insts[i].finalizer {
            WriteKeepsFinalizer(s, out.write, i);
          }
        }
      case CallInst(j, fault) =>
        if j in w.sys.ip {
          assert PassHolds(s, w.dirty, j, w.sys.ip[j]) by { HoldsOf(w, j); }
          InstKeepsFinalizer(s, w.dirty, j, w.sys.ip[j], fault);
          forall i ensures i in t.st.insts && t.st.insts[i].deleting ==> t.st.insts[i].finalizer {
            WriteKeepsFinalizer(s, I.Call(s, j, w.sys.ip[j], fault).write, i);
          }
        }
      case Tick(_) => case Fire(_) => case StartCluster(_) => case StartInst(_) =>
      case _ =>
        OutsideKeepsFinalizer(s, a);
        forall i ensures i in t.st.insts && t.st.insts[i].deleting ==> t.st.insts[i].finalizer {
          WriteKeepsFinalizer(s, OutsideWrite(s, a), i);
        }
    }
  }

  lemma HoldsOf(w: Watched, i: Key)
    requires Minded(w, i) && i in w.sys.ip
    ensures PassHolds(w.sys.st, w.dirty, i, w.sys.ip[i])
  {
  }

  /** Which passes of other keys a step touches: none. Time does not run backwards. */
  lemma StepSparesOthers(s: System, a: Action, i: Key)
    requires !((a.StartInst? || a.CallInst?) && a.i == i && (a.StartInst? <==> i !in s.ip))
    ensures var t := Do(s, a);
            && t.st.now >= s.st.now
            && (i in t.ip <==> i in s.ip) && (i in s.ip ==> t.ip[i] == s.ip[i])
  {
    NowStays(s.st, WriteOf(s, a));
    hide Perform, C.Call, I.Call, OutsideWrite;
    match a {
      case CallCluster(k, fault) =>
        if k in s.cp {
          SettleQueue(s, k, C.Call(s.st, k, s.cp[k], fault));
          hide SettleCluster;
        }
      case CallInst(_, _) =>
      case Tick(_) => case Fire(_) => case StartCluster(_) => case StartInst(_) =>
      case _ =>
    }
  }

  lemma StartStep(w: Watched, i: Key)
    requires Minded(w, i) && i !in w.sys.ip
    ensures Minded(Step(w, Lab(StartInst(i))), i)
  {
  }

  lemma FireStep(w: Watched, i: Key, j: Key)
    requires Minded(w, i)
    ensures Minded(Step(w, FireInst(j)), i)
  {
  }

  lemma StepKeepsMinded(w: Watched, e: Event)
    requires AllMinded(w)
    ensures AllMinded(Step(w, e))
  {
    forall i: Key ensures Minded(Step(w, e), i) {
      assert Minded(w, i);
      hide Minded, Step, Do;
      match e {
        case FireInst(j) => FireStep(w, i, j);
        case Lab(a) =>
          if a.StartInst? && a.i == i && i !in w.sys.ip {
            StartStep(w, i);
          } else if a.CallInst? && a.i == i && i in w.sys.ip {
            OwnStep(w, i, a.fault);
          } else {
            StepSparesOthers(w.sys, a, i);
            StepKeepsFinalizers(w, a);
            OtherStep(w, a, i);
          }
      }
    }
  }

  lemma {:induction false} WatchKeepsMinded(w: Watched, events: seq<Event>)
    requires AllMinded(w)
    ensures AllMinded(Watch(w, events))
    decreases |events|
  {
    hide Step, AllMinded;
    if events != [] {
      StepKeepsMinded(w, events[0]);
      WatchKeepsMinded(Step(w, events[0]), events[1..]);
    }
  }

  /**
   In every run: a stored InstanceLab whose key is neither queued nor being reconciled is live and
   carries the finalizer, so that no deletion and no new InstanceLab is forgotten; and while it
   waits for its ClusterLab it has a timer for at most five seconds from now.
   */
  lemma NoForgottenInstance(w: Watched, events: seq<Event>, i: Key)
    requires Fresh(w)
    requires var t := Watch(w, events); i in t.sys.st.insts && i !in t.sys.ip && i !in t.dirty
    ensures var t := Watch(w, events);
            var inst := t.sys.st.insts[i];
            && !inst.deleting && inst.finalizer
            && (inst.status.phase == Pending || inst.status.phase == NoPhase ==>
                  i in t.timers && t.timers[i] <= t.sys.st.now + 5_000_000_000)
  {
    hide Watch;
    WatchKeepsMinded(w, events);
    assert Minded(Watch(w, events), i);
  }
}
