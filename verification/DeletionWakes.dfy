/**
 Deletion is never forgotten: while a ClusterLab under deletion is stored, its key is queued, or
 is being reconciled, or has a timer that rings within three seconds. No namespace is watched, so
 this timer is all that brings the operator back once the namespace is gone. And the queue is
 enough: from every state of every run, passes that start only on a queued key take the ClusterLab
 and its namespace away.
 */
module DeletionWakes {
  import opened LabStore
  import opened LabSystem
  import opened NoResidue
  import opened PassFacts
  import opened Deadlines
  import D = Drain
  import C = ClusterLabController
  import I = InstanceLabController

  /** Up to the check of the namespace a pass over a ClusterLab under deletion leads to a new entry. */
  ghost predicate Returns(p: C.Pass)
  {
    p.Get? || p.DeleteTarget? || p.CheckTarget? || p.RemoveFinalizer?
  }

  ghost predicate Awake(s: Store, cp: map<Key, C.Pass>, k: Key)
  {
    k in s.labs && s.labs[k].deleting ==>
      || k in s.dirty
      || if k in cp then Returns(cp[k]) else k in s.timers && s.timers[k] <= s.now + 3_000_000_000
  }

  ghost predicate AllAwake(s: Store, cp: map<Key, C.Pass>)
  {
    forall k: Key :: Awake(s, cp, k)
  }

  /** Whoever sets the deletion timestamp queues the key. */
  lemma WriteKeepsAwake(s: Store, cp: map<Key, C.Pass>, w: Write, k: Key)
    requires Awake(s, cp, k)
    ensures Awake(Perform(s, w), cp, k)
  {
  }

  /** Settling a call drops no entry of the queue: it only adds one, or brings a timer forward. */
  lemma SettleKeepsEntry(s: System, k: Key, out: C.Outcome)
    ensures var st := Perform(s.st, out.write);
            var t := SettleCluster(s, k, out).st;
            && (k in st.dirty || out.then_.Err? ==> k in t.dirty)
            && (out.then_.Done? && out.then_.wait > 0 ==> k in t.timers && t.timers[k] <= t.now + out.then_.wait)
  {
    hide Perform;
    match out.then_ { case Next(_) => case Done(_) => case Err => }
  }

  /** A deletion that is under way leads on, to an error, to a timer, or to the end of the ClusterLab. */
  lemma DyingCall(s: Store, k: Key, p: C.Pass, fault: bool)
    requires Dying(p) && Facts(s, k, p)
    ensures var out := C.Call(s, k, p, fault);
            match out.then_
            case Next(q) => Returns(q)
            case Done(wait) => 0 < wait <= 3_000_000_000 || k !in Perform(s, out.write).labs
            case Err => true
  {
  }

  lemma ReadCall(s: Store, k: Key, fault: bool)
    requires k in s.labs && s.labs[k].deleting && s.labs[k].finalizer
    ensures var out := C.Call(s, k, C.Get, fault);
            out.write == Nothing && (out.then_.Err? || (out.then_.Next? && Returns(out.then_.pass)))
  {
  }

  /** A call of the key's own pass. */
  lemma OwnCall(s: System, k: Key, fault: bool)
    requires k in s.cp && Awake(s.st, s.cp, k) && D.Kept(s.st) && Facts(s.st, k, s.cp[k])
    ensures var t := SettleCluster(s, k, C.Call(s.st, k, s.cp[k], fault)); Awake(t.st, t.cp, k)
  {
    var out := C.Call(s.st, k, s.cp[k], fault);
    SettleKeepsEntry(s, k, out);
    SettleQueue(s, k, out);
    WriteKeepsAwake(s.st, s.cp, out.write, k);
    if Dying(s.cp[k]) {
      DyingCall(s.st, k, s.cp[k], fault);
    } else if s.cp[k].Get? && k in s.st.labs && s.st.labs[k].deleting {
      ReadCall(s.st, k, fault);
    }
    NothingHappens(s.st);
    hide C.Call, Perform, SettleCluster, Facts;
  }

  lemma CallKeepsAwake(s: System, k: Key, fault: bool)
    requires k in s.cp && AllAwake(s.st, s.cp) && D.Kept(s.st) && Facts(s.st, k, s.cp[k])
    ensures var t := SettleCluster(s, k, C.Call(s.st, k, s.cp[k], fault)); AllAwake(t.st, t.cp)
  {
    var out := C.Call(s.st, k, s.cp[k], fault);
    var t := SettleCluster(s, k, out);
    OwnCall(s, k, fault);
    SettleQueue(s, k, out);
    SettleOthers(s, k, out);
    hide C.Call, Perform, D.Kept, Facts, SettleCluster;
    forall l: Key ensures Awake(t.st, t.cp, l) {
      WriteKeepsAwake(s.st, s.cp, out.write, l);
    }
  }

  lemma DoKeepsAwake(s: System, a: Action)
    requires AllAwake(s.st, s.cp) && D.Kept(s.st) && AllFacts(s.st, s.cp)
    ensures var t := Do(s, a); AllAwake(t.st, t.cp)
  {
    var t := Do(s, a);
    hide C.Call, I.Call, Perform, SettleCluster, D.Kept, Facts;
    match a {
      case CallCluster(k, fault) => if k in s.cp { CallKeepsAwake(s, k, fault); }
      case CallInst(i, fault) =>
        if i in s.ip {
          forall k: Key ensures Awake(t.st, t.cp, k) {
            WriteKeepsAwake(s.st, s.cp, I.Call(s.st, i, s.ip[i], fault).write, k);
          }
        }
      case Tick(_) =>
        forall k: Key ensures Awake(t.st, t.cp, k) { assert Awake(s.st, s.cp, k); }
      case Fire(_) =>
        forall k: Key ensures Awake(t.st, t.cp, k) { assert Awake(s.st, s.cp, k); }
      case StartInst(_) =>
      case StartCluster(_) =>
        forall k: Key ensures Awake(t.st, t.cp, k) { assert Awake(s.st, s.cp, k); }
      case _ =>
        forall k: Key ensures Awake(t.st, t.cp, k) { WriteKeepsAwake(s.st, s.cp, OutsideWrite(s.st, a), k); }
    }
  }

  /** What the queue rests on. */
  ghost predicate Minded(s: System)
  {
    Inv(s.st, s.cp) && AllFacts(s.st, s.cp) && D.Kept(s.st) && AllAwake(s.st, s.cp)
  }

  lemma {:induction false} RunKeepsMinded(s: System, acts: seq<Action>)
    requires Minded(s)
    ensures Minded(Run(s, acts))
    decreases |acts|
  {
    hide Do, Inv, AllFacts, D.Kept, AllAwake;
    if acts != [] {
      DoKeeps(s, acts[0]);
      DoKeepsFacts(s, acts[0]);
      D.DoKept(s, acts[0]);
      DoKeepsAwake(s, acts[0]);
      RunKeepsMinded(Do(s, acts[0]), acts[1..]);
    }
  }

  lemma StartsMinded(s: System)
    requires Initial(s)
    ensures Minded(s)
  {
  }

  /**
   In every run: a stored ClusterLab under deletion carries the finalizer, and unless it is being
   reconciled its key is queued or has a timer for at most three seconds from now.
   */
  lemma DeletionWakes(s: System, acts: seq<Action>, k: Key)
    requires Initial(s)
    requires var t := Run(s, acts); k in t.st.labs && t.st.labs[k].deleting && k !in t.cp
    ensures var t := Run(s, acts).st;
            && t.labs[k].finalizer
            && (k in t.dirty || (k in t.timers && t.timers[k] <= t.now + 3_000_000_000))
  {
    hide Run;
    StartsMinded(s);
    RunKeepsMinded(s, acts);
    assert Awake(Run(s, acts).st, Run(s, acts).cp, k);
  }

  // ----- and the queue is enough -----------------------------------------------------------------

  /** No pass of `k` starts unless its key is queued. */
  ghost predicate QueueLed(s: System, acts: seq<Action>, k: Key)
    decreases |acts|
  {
    acts != [] ==>
      && (acts[0] == StartCluster(k) ==> k in s.st.dirty)
      && QueueLed(Do(s, acts[0]), acts[1..], k)
  }

  lemma {:induction false} LedAppend(s: System, a: seq<Action>, b: seq<Action>, k: Key)
    requires QueueLed(s, a, k) && QueueLed(Run(s, a), b, k)
    ensures QueueLed(s, a + b, k)
    decreases |a|
  {
    hide Do;
    if a == [] {
      assert a + b == b;
    } else {
      assert (a + b)[1..] == a[1..] + b;
      LedAppend(Do(s, a[0]), a[1..], b, k);
    }
  }

  lemma {:induction false} NoStartLed(s: System, acts: seq<Action>, k: Key)
    requires forall j :: 0 <= j < |acts| ==> !acts[j].StartCluster?
    ensures QueueLed(s, acts, k)
    decreases |acts|
  {
    hide Do;
    if acts != [] {
      NoStartLed(Do(s, acts[0]), acts[1..], k);
    }
  }

  /** Until the timer rings: at most three seconds, and the key is queued. */
  lemma Wakes(s: System, k: Key) returns (acts: seq<Action>)
    requires AllAwake(s.st, s.cp) && k in s.st.labs && s.st.labs[k].deleting && k !in s.cp
    ensures |acts| <= 2 && forall j :: 0 <= j < |acts| ==> !acts[j].StartCluster?
    ensures var t := Run(s, acts);
            && k in t.st.dirty && s.st.now <= t.st.now <= s.st.now + 3_000_000_000
            && t == s.(st := s.st.(now := t.st.now, dirty := t.st.dirty, timers := t.st.timers))
  {
    assert Awake(s.st, s.cp, k);
    if k in s.st.dirty {
      acts := [];
    } else {
      var at := s.st.timers[k];
      var dt := if at > s.st.now then at - s.st.now else 0;
      acts := [Tick(dt), Fire(k)];
      assert acts == [Tick(dt)] + ([Fire(k)] + []);
      RunCons(s, Tick(dt), [Fire(k)] + []);
      RunCons(Do(s, Tick(dt)), Fire(k), []);
      D.RunNone(Do(Do(s, Tick(dt)), Fire(k)));
    }
  }

  /** The deletion of `k` is over, at most three seconds later, and nothing else has changed. */
  ghost predicate Over(s: System, t: System, k: Key)
  {
    && t.st.names == s.st.names && t.st.insts == s.st.insts
    && t.st.labs == s.st.labs - {k} && t.st.spaces == s.st.spaces - {s.st.Target(k.name)}
    && t.cp == s.cp - {k} && t.ip == s.ip
    && s.st.now <= t.st.now <= s.st.now + 3_000_000_000
  }

  lemma OverAfter(s: System, u: System, v: System, w: System, t: System, k: Key)
    requires u.st.names == s.st.names && u.st.labs == s.st.labs && u.st.spaces == s.st.spaces
    requires u.st.insts == s.st.insts && u.st.now == s.st.now && u.cp == s.cp - {k} && u.ip == s.ip
    requires s.st.now <= v.st.now <= s.st.now + 3_000_000_000
    requires v == u.(st := u.st.(now := v.st.now, dirty := v.st.dirty, timers := v.st.timers))
    requires w.cp - {k} == v.cp - {k} && w.ip == v.ip && w.st.names == v.st.names && w.st.labs == v.st.labs
    requires w.st.insts == v.st.insts && w.st.now == v.st.now
    requires var n := s.st.Target(k.name);
             w.st.spaces == if n in v.st.spaces then v.st.spaces[n := v.st.spaces[n].(terminating := true)]
                            else v.st.spaces
    requires D.Gone(w, t, k)
    ensures Over(s, t, k) && D.Left(w.st, k) == D.Left(s.st, k)
  {
    var n := s.st.Target(k.name);
    assert w.st.spaces - {n} == s.st.spaces - {n};
    assert w.cp - {k} == s.cp - {k};
  }

  lemma DeletesByQueue(s: System, k: Key) returns (acts: seq<Action>)
    requires Minded(s) && k in s.st.labs && s.st.labs[k].deleting
    ensures |acts| <= D.Left(s.st, k) + 9 && QueueLed(s, acts, k) && Over(s, Run(s, acts), k)
  {
    hide Run, Do, QueueLed, D.Gone, D.Left, Inv, AllFacts, D.Kept, AllAwake, Over;
    var ends := D.PassEnds(s, k);
    var u := Run(s, ends);
    RunKeepsMinded(s, ends);
    var wakes := Wakes(u, k);
    var v := Run(u, wakes);
    RunKeepsMinded(u, wakes);
    D.StoredSound(v, k);
    D.PassDeletes(v, k);
    var c := CallCluster(k, false);
    var deletes := [StartCluster(k), c, c];
    var w := Run(v, deletes);
    var rest := D.Releases(w, k);
    OverAfter(s, u, v, w, Run(w, rest), k);
    acts := ends + (wakes + (deletes + rest));
    RunAppend(s, ends, wakes + (deletes + rest));
    RunAppend(u, wakes, deletes + rest);
    RunAppend(v, deletes, rest);
    NoStartLed(w, rest, k);
    assert deletes == [StartCluster(k)] + [c, c];
    StartLed(v, k, [c, c]);
    LedAppend(v, deletes, rest, k);
    NoStartLed(u, wakes, k);
    LedAppend(u, wakes, deletes + rest, k);
    NoStartLed(s, ends, k);
    LedAppend(s, ends, wakes + (deletes + rest), k);
  }

  lemma StartLed(s: System, k: Key, calls: seq<Action>)
    requires k in s.st.dirty && forall j :: 0 <= j < |calls| ==> !calls[j].StartCluster?
    ensures QueueLed(s, [StartCluster(k)] + calls, k)
  {
    hide Do;
    assert ([StartCluster(k)] + calls)[1..] == calls;
    NoStartLed(Do(s, StartCluster(k)), calls, k);
  }

  /**
   From any state of any run the deletion of a ClusterLab can be completed by passes that the
   queue starts, in a bounded number of steps and within three seconds.
   */
  lemma QueueCompletesDeletion(s: System, acts: seq<Action>, k: Key) returns (more: seq<Action>)
    requires Initial(s)
    requires var t := Run(s, acts).st; k in t.labs && t.labs[k].deleting
    ensures var t := Run(s, acts);
            |more| <= D.Left(t.st, k) + 9 && QueueLed(t, more, k) && Over(t, Run(s, acts + more), k)
  {
    hide Run, QueueLed, Over, D.Left;
    StartsMinded(s);
    RunKeepsMinded(s, acts);
    more := DeletesByQueue(Run(s, acts), k);
    RunAppend(s, acts, more);
  }
}
