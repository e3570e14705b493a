/**
 Time to live. The operator deletes no ClusterLab before creation plus TTL, whatever fails
 and however calls interleave. A live lab that is not queued and not being reconciled
 carries the exact expiry in its status and has a timer that rings no later than the expiry
 plus the time a pass may take after it read the clock.

 The clock is read twice in a pass. If the expiry falls between the two readings the delay
 comes out as not positive and no timer is set, hence the condition of `Punctual`.
 */
module Deadlines {
  import opened Prelude
  import Conditions
  import opened LabStore
  import opened LabSystem
  import opened NoResidue
  import opened PassFacts
  import opened Counters
  import C = ClusterLabController
  import I = InstanceLabController

  function Expiry(lab: ClusterLab): Option<int>
  {
    if lab.spec.ttl.Lasts? then Some(lab.created + lab.spec.ttl.duration) else None
  }

  /** The pass carries a delay it computed from the clock. */
  ghost predicate Waiting(p: C.Pass)
  {
    p.ApplyNamespace? || p.ApplyQuota? || p.ApplyNetwork? || p.ListInstances? || p.WriteStatus?
  }

  /** Both clock readings before the expiry; at most `slack` between the second one and the end. */
  ghost predicate Punctual(s: System, a: Action, slack: nat)
  {
    && (a.CallCluster? && a.k in s.cp && s.cp[a.k].ReadClock? && s.cp[a.k].mem.expiresAt.Some? ==>
          s.st.now < s.cp[a.k].mem.expiresAt.value)
    && (a.Tick? ==> forall k :: k in s.cp && Waiting(s.cp[k]) && Expiry(s.cp[k].lab).Some? ==>
          s.st.now + a.dt + s.cp[k].wait <= Expiry(s.cp[k].lab).value + slack)
  }

  ghost predicate LabTimed(s: Store, cp: map<Key, C.Pass>, k: Key, slack: nat)
  {
    AtRest(s, cp, k) ==>
      var lab := s.labs[k];
      && !lab.spec.ttl.BadTtl?
      && lab.status.expiresAt == Expiry(lab)
      && (Expiry(lab).Some? ==> k in s.timers && s.timers[k] <= Expiry(lab).value + slack)
  }

  ghost predicate PassTimed(s: Store, k: Key, p: C.Pass, slack: nat)
  {
    && (p.ReadClock? || Waiting(p) ==> !p.lab.spec.ttl.BadTtl? && p.mem.expiresAt == Expiry(p.lab))
    && (Waiting(p) && Expiry(p.lab).Some? ==> p.wait > 0 && s.now + p.wait <= Expiry(p.lab).value + slack)
  }

  ghost predicate Timed(s: Store, cp: map<Key, C.Pass>, slack: nat)
  {
    forall k: Key :: LabTimed(s, cp, k, slack) && (k in cp ==> PassTimed(s, k, cp[k], slack))
  }

  lemma WriteKeepsTimed(s: Store, cp: map<Key, C.Pass>, w: Write, slack: nat)
    requires Timed(s, cp, slack)
    ensures Timed(Perform(s, w), cp, slack)
  {
    var st := Perform(s, w);
    forall k: Key ensures LabTimed(st, cp, k, slack) && (k in cp ==> PassTimed(st, k, cp[k], slack)) {
      assert LabTimed(s, cp, k, slack) && (k in cp ==> PassTimed(s, k, cp[k], slack));
    }
  }

  lemma NextTimed(s: Store, k: Key, p: C.Pass, fault: bool, slack: nat)
    requires PassTimed(s, k, p, slack)
    requires p.ReadClock? && p.mem.expiresAt.Some? ==> s.now < p.mem.expiresAt.value
    ensures var out := C.Call(s, k, p, fault);
            out.then_.Next? ==> PassTimed(s, k, out.then_.pass, slack)
  {
    hide Conditions.Set, Members, RunningMembers;
    match p {
      case Get =>
      case ReadClock(_, _) =>
      case ListInstances(_, _, _) =>
      case _ =>
    }
  }

  /** The last call of a pass sets the timer, queues the key, or finds the lab no longer live. */
  lemma LastTimed(s: System, k: Key, fault: bool, slack: nat)
    requires k in s.cp
    requires PassSound(s.st, k, s.cp[k]) && Facts(s.st, k, s.cp[k]) && PassTimed(s.st, k, s.cp[k], slack)
    requires !C.Call(s.st, k, s.cp[k], fault).then_.Next?
    ensures var t := SettleCluster(s, k, C.Call(s.st, k, s.cp[k], fault)); LabTimed(t.st, t.cp, k, slack)
  {
    match s.cp[k] {
      case AddFinalizer(_) =>
      case WriteStatus(_, _, _) =>
      case WriteFailed(_, _) =>
      case DeleteExpired(_) =>
      case _ =>
    }
  }

  /** Work added to the queue, timers that only come earlier, passes in flight kept. */
  lemma QueueKeepsTimed(s: Store, st: Store, cp: map<Key, C.Pass>, slack: nat)
    requires Timed(s, cp, slack)
    requires st.labs == s.labs && s.dirty <= st.dirty
    requires forall k :: k in s.timers ==> k in st.dirty || (k in st.timers && st.timers[k] <= s.timers[k])
    requires forall k :: k in cp ==> PassTimed(st, k, cp[k], slack)
    ensures Timed(st, cp, slack)
  {
    forall k: Key ensures LabTimed(st, cp, k, slack) {
      assert LabTimed(s, cp, k, slack);
    }
  }

  lemma MiddleKeepsTimed(s: System, k: Key, fault: bool, slack: nat)
    requires Timed(s.st, s.cp, slack) && k in s.cp && C.Call(s.st, k, s.cp[k], fault).then_.Next?
    requires Punctual(s, CallCluster(k, fault), slack)
    ensures var t := SettleCluster(s, k, C.Call(s.st, k, s.cp[k], fault)); Timed(t.st, t.cp, slack)
  {
    var out := C.Call(s.st, k, s.cp[k], fault);
    hide C.Call, Perform, LabTimed, PassTimed;
    NextTimed(s.st, k, s.cp[k], fault, slack);
    AdvanceTimed(s.st, s.cp, k, out.then_.pass, slack);
    WriteKeepsTimed(s.st, s.cp[k := out.then_.pass], out.write, slack);
  }

  lemma AdvanceTimed(s: Store, cp: map<Key, C.Pass>, k: Key, p: C.Pass, slack: nat)
    requires Timed(s, cp, slack) && k in cp && PassTimed(s, k, p, slack)
    ensures Timed(s, cp[k := p], slack)
  {
    var cq := cp[k := p];
    forall l: Key ensures LabTimed(s, cq, l, slack) {
      assert LabTimed(s, cp, l, slack);
    }
    hide PassTimed, LabTimed;
    assert forall l: Key :: l in cp ==> PassTimed(s, l, cp[l], slack);
  }

  lemma LastKeepsTimed(s: System, k: Key, fault: bool, slack: nat)
    requires Inv(s.st, s.cp) && AllFacts(s.st, s.cp) && Timed(s.st, s.cp, slack) && k in s.cp
    requires !C.Call(s.st, k, s.cp[k], fault).then_.Next?
    ensures var t := SettleCluster(s, k, C.Call(s.st, k, s.cp[k], fault)); Timed(t.st, t.cp, slack)
  {
    var out := C.Call(s.st, k, s.cp[k], fault);
    var t := SettleCluster(s, k, out);
    assert PassSound(s.st, k, s.cp[k]) && Facts(s.st, k, s.cp[k]) && PassTimed(s.st, k, s.cp[k], slack);
    hide C.Call, Perform, PassSound, Facts, Inv;
    WriteKeepsTimed(s.st, s.cp, out.write, slack);
    SettleQueue(s, k, out);
    SettleOthers(s, k, out);
    forall l: Key ensures LabTimed(t.st, t.cp, l, slack) && (l in t.cp ==> PassTimed(t.st, l, t.cp[l], slack)) {
      var st := Perform(s.st, out.write);
      assert LabTimed(st, s.cp, l, slack) && (l in s.cp ==> PassTimed(st, l, s.cp[l], slack));
      if l == k { LastTimed(s, k, fault, slack); }
    }
  }

  /** Settling leaves the queue entries of other keys alone. */
  lemma SettleOthers(s: System, k: Key, out: C.Outcome)
    ensures var st := Perform(s.st, out.write);
            var t := SettleCluster(s, k, out).st;
            forall l :: l != k ==>
              (l in t.dirty <==> l in st.dirty)
              && (l in t.timers <==> l in st.timers)
              && (l in t.timers ==> t.timers[l] == st.timers[l])
  {
    hide Perform;
    match out.then_ { case Next(_) => case Done(_) => case Err => }
  }

  lemma StartKeepsTimed(s: System, k: Key, slack: nat)
    requires Timed(s.st, s.cp, slack) && k !in s.cp
    ensures var t := Do(s, StartCluster(k)); Timed(t.st, t.cp, slack)
  {
    var t := Do(s, StartCluster(k));
    forall l: Key ensures LabTimed(t.st, t.cp, l, slack) && (l in t.cp ==> PassTimed(t.st, l, t.cp[l], slack)) {
      assert LabTimed(s.st, s.cp, l, slack) && (l in s.cp ==> PassTimed(s.st, l, s.cp[l], slack));
    }
  }

  lemma TickKeepsTimed(s: System, dt: nat, slack: nat)
    requires Timed(s.st, s.cp, slack) && Punctual(s, Tick(dt), slack)
    ensures var t := Do(s, Tick(dt)); Timed(t.st, t.cp, slack)
  {
    var t := Do(s, Tick(dt));
    forall k | k in s.cp ensures PassTimed(t.st, k, s.cp[k], slack) {
      assert PassTimed(s.st, k, s.cp[k], slack);
    }
    QueueKeepsTimed(s.st, t.st, s.cp, slack);
  }

  lemma FireKeepsTimed(s: System, k: Key, slack: nat)
    requires Timed(s.st, s.cp, slack)
    ensures var t := Do(s, Fire(k)); Timed(t.st, t.cp, slack)
  {
    var t := Do(s, Fire(k));
    forall l | l in s.cp ensures PassTimed(t.st, l, s.cp[l], slack) {
      assert PassTimed(s.st, l, s.cp[l], slack);
    }
    QueueKeepsTimed(s.st, t.st, s.cp, slack);
  }

  lemma DoKeepsTimed(s: System, a: Action, slack: nat)
    requires Inv(s.st, s.cp) && AllFacts(s.st, s.cp) && Timed(s.st, s.cp, slack) && Punctual(s, a, slack)
    ensures var t := Do(s, a); Timed(t.st, t.cp, slack)
  {
    hide C.Call, I.Call, Perform, Inv, AllFacts, Timed, SettleCluster, Punctual;
    match a {
      case CallCluster(k, fault) =>
        if k in s.cp {
          if C.Call(s.st, k, s.cp[k], fault).then_.Next? {
            MiddleKeepsTimed(s, k, fault, slack);
          } else {
            LastKeepsTimed(s, k, fault, slack);
          }
        }
      case CallInst(i, fault) =>
        if i in s.ip { WriteKeepsTimed(s.st, s.cp, I.Call(s.st, i, s.ip[i], fault).write, slack); }
      case Tick(dt) => TickKeepsTimed(s, dt, slack);
      case Fire(k) => FireKeepsTimed(s, k, slack);
      case StartInst(_) =>
      case StartCluster(k) => if k !in s.cp { StartKeepsTimed(s, k, slack); }
      case _ => WriteKeepsTimed(s.st, s.cp, OutsideWrite(s.st, a), slack);
    }
  }

  ghost predicate PunctualRun(s: System, acts: seq<Action>, slack: nat)
    decreases |acts|
  {
    acts != [] ==> Punctual(s, acts[0], slack) && PunctualRun(Do(s, acts[0]), acts[1..], slack)
  }

  lemma {:induction false} RunKeepsTimed(s: System, acts: seq<Action>, slack: nat)
    requires Inv(s.st, s.cp) && AllFacts(s.st, s.cp) && Timed(s.st, s.cp, slack) && PunctualRun(s, acts, slack)
    ensures var t := Run(s, acts); Timed(t.st, t.cp, slack)
    decreases |acts|
  {
    hide Do, Inv, AllFacts, Timed, Punctual;
    if acts != [] {
      DoKeeps(s, acts[0]);
      DoKeepsFacts(s, acts[0]);
      DoKeepsTimed(s, acts[0], slack);
      RunKeepsTimed(Do(s, acts[0]), acts[1..], slack);
    }
  }

  lemma WriteKeepsTimers(s: Store, w: Write)
    ensures Perform(s, w).timers == s.timers
  {
  }

  lemma SettleKeepsTimers(s: System, k: Key, out: C.Outcome, l: Key)
    requires l in s.st.timers
    ensures var t := SettleCluster(s, k, out).st; l in t.timers && t.timers[l] <= s.st.timers[l]
  {
    WriteKeepsTimers(s.st, out.write);
    hide Perform;
    match out.then_ { case Next(_) => case Done(_) => case Err => }
  }

  /** A timer is never put off: until it rings it only comes earlier. */
  lemma TimersComeEarlier(s: System, a: Action, k: Key)
    requires k in s.st.timers && a != Fire(k)
    ensures var t := Do(s, a).st; k in t.timers && t.timers[k] <= s.st.timers[k]
  {
    WriteKeepsTimers(s.st, WriteOf(s, a));
    hide C.Call, I.Call, OutsideWrite, Perform, SettleCluster;
    match a {
      case CallCluster(l, fault) => if l in s.cp { SettleKeepsTimers(s, l, C.Call(s.st, l, s.cp[l], fault), k); }
      case CallInst(_, _) => case Tick(_) => case Fire(_) => case StartCluster(_) => case StartInst(_) =>
      case _ =>
    }
  }

  /** At rest, the expiry in the status is exact and a timer rings in time. */
  lemma ExpiryNeverMissed(s: System, acts: seq<Action>, k: Key, slack: nat)
    requires Initial(s) && PunctualRun(s, acts, slack)
    requires AtRest(Run(s, acts).st, Run(s, acts).cp, k)
    ensures var t := Run(s, acts).st;
            var lab := t.labs[k];
            && lab.status.expiresAt == Expiry(lab)
            && (lab.spec.ttl.Lasts? ==>
                  k in t.timers && t.timers[k] <= lab.created + lab.spec.ttl.duration + slack)
  {
    hide Run;
    assert Timed(s.st, s.cp, slack);
    RunKeepsTimed(s, acts, slack);
    assert LabTimed(Run(s, acts).st, Run(s, acts).cp, k, slack);
  }

  /** A step of a reconciler or of the queue, as opposed to a step of a user. */
  ghost predicate OperatorStep(a: Action)
  {
    a.Fire? || a.StartCluster? || a.CallCluster? || a.StartInst? || a.CallInst?
  }

  ghost predicate Live(s: Store, k: Key) { k in s.labs && !s.labs[k].deleting }

  /** Most calls write no ClusterLab. */
  lemma SparesLabs(s: Store, k: Key, p: C.Pass, fault: bool)
    ensures var w := C.Call(s, k, p, fault).write;
            || p.AddFinalizer? || p.WriteStatus? || p.WriteFailed? || p.DeleteExpired? || p.RemoveFinalizer?
            || w.Nothing? || w.PutSpace?
  {
  }

  /** Saving a live object leaves it live. */
  lemma SaveSparesLife(s: Store, k: Key, p: C.Pass, fault: bool, l: Key)
    requires p.AddFinalizer? || p.WriteStatus? || p.WriteFailed?
    requires Facts(s, k, p) && Live(s, l)
    ensures Live(Perform(s, C.Call(s, k, p, fault).write), l)
  {
  }

  lemma RemoveSparesLife(s: Store, k: Key, p: C.Pass, fault: bool, l: Key)
    requires p.RemoveFinalizer? && Facts(s, k, p) && Live(s, l)
    ensures Live(Perform(s, C.Call(s, k, p, fault).write), l)
  {
  }

  lemma ExpirySparesOthers(s: Store, k: Key, p: C.Pass, fault: bool, l: Key)
    requires p.DeleteExpired? && Live(s, l) && l != k
    ensures Live(Perform(s, C.Call(s, k, p, fault).write), l)
  {
  }

  /** Only the call that deletes an expired ClusterLab ends a life, and only that one's. */
  lemma OnlyExpiryKills(s: Store, k: Key, p: C.Pass, fault: bool, l: Key)
    requires Facts(s, k, p) && Live(s, l) && !(l == k && p.DeleteExpired?)
    ensures Live(Perform(s, C.Call(s, k, p, fault).write), l)
  {
    SparesLabs(s, k, p, fault);
    hide C.Call, Facts;
    if p.AddFinalizer? || p.WriteStatus? || p.WriteFailed? {
      SaveSparesLife(s, k, p, fault, l);
    } else if p.RemoveFinalizer? {
      RemoveSparesLife(s, k, p, fault, l);
    } else if p.DeleteExpired? {
      ExpirySparesOthers(s, k, p, fault, l);
    }
  }

  lemma OperatorKillsExpired(t: System, a: Action, k: Key)
    requires AllFacts(t.st, t.cp) && OperatorStep(a) && Live(t.st, k) && !Live(Do(t, a).st, k)
    ensures k in t.cp && t.cp[k].DeleteExpired?
  {
    hide C.Call, I.Call, Perform;
    match a {
      case CallInst(i, fault) =>
        if i in t.ip {
          InstKeepsLabs(t.st, t.cp, i, t.ip[i], fault);
          InstSparesLife(t.st, I.Call(t.st, i, t.ip[i], fault).write, k);
        }
      case CallCluster(j, fault) =>
        if j in t.cp {
          assert Facts(t.st, j, t.cp[j]);
          SettleQueue(t, j, C.Call(t.st, j, t.cp[j], fault));
          hide SettleCluster, Facts;
          if !(j == k && t.cp[j].DeleteExpired?) {
            OnlyExpiryKills(t.st, j, t.cp[j], fault, k);
          }
        }
      case _ =>
    }
  }

  lemma InstSparesLife(s: Store, w: Write, k: Key)
    requires Live(s, k) && !w.PutLab? && !w.DropLab?
    ensures Live(Perform(s, w), k)
  {
  }

  /**
   If an operator step ends the life of a live ClusterLab, the TTL its pass had read is over;
   it is the stored one unless the spec was edited since.
   */
  lemma NeverDeletedEarly(s: System, acts: seq<Action>, a: Action, k: Key)
    requires Initial(s) && OperatorStep(a)
    requires Live(Run(s, acts).st, k) && !Live(Do(Run(s, acts), a).st, k)
    ensures var t := Run(s, acts);
            && k in t.cp && t.cp[k].DeleteExpired? && t.cp[k].lab.spec.ttl.Lasts?
            && t.st.now >= t.st.labs[k].created + t.cp[k].lab.spec.ttl.duration
            && (t.cp[k].lab.spec == t.st.labs[k].spec ==> t.st.now >= Expiry(t.st.labs[k]).value)
  {
    hide Run, Do;
    RunKeepsFacts(s, acts);
    var t := Run(s, acts);
    OperatorKillsExpired(t, a, k);
    assert Facts(t.st, k, t.cp[k]);
  }
}
