/**
 Nobody waits for ever: an InstanceLab that waits, whose ClusterLab has come to say Running, is
 placed by the next pass that its queue starts, within five seconds.
 */
module InstanceWakes {
  import opened LabStore
  import opened LabSystem
  import opened InstanceQueue
  import opened PlacementPass
  import opened Passes
  import I = InstanceLabController

  const NONE: nat -> bool := _ => false

  /** No pass of `i` starts unless its key is queued. */
  ghost predicate QueueLed(w: Watched, events: seq<Event>, i: Key)
    decreases |events|
  {
    events != [] ==>
      && (events[0] == Lab(StartInst(i)) ==> i in w.dirty)
      && QueueLed(Step(w, events[0]), events[1..], i)
  }

  function Lifted(acts: seq<Action>): seq<Event>
  {
    if acts == [] then [] else [Lab(acts[0])] + Lifted(acts[1..])
  }

  lemma {:induction false} LiftedSteps(acts: seq<Action>)
    ensures Steps(Lifted(acts)) == acts
  {
    if acts != [] {
      LiftedSteps(acts[1..]);
      assert Lifted(acts)[1..] == Lifted(acts[1..]);
    }
  }

  lemma {:induction false} CallsLed(w: Watched, acts: seq<Action>, i: Key)
    requires forall j :: 0 <= j < |acts| ==> acts[j].CallInst?
    ensures QueueLed(w, Lifted(acts), i)
    decreases |acts|
  {
    hide Step;
    if acts != [] {
      assert Lifted(acts)[1..] == Lifted(acts[1..]) && Lifted(acts)[0] == Lab(acts[0]);
      CallsLed(Step(w, Lab(acts[0])), acts[1..], i);
    }
  }

  lemma WatchCons(w: Watched, e: Event, rest: seq<Event>, i: Key)
    ensures Watch(w, [e] + rest) == Watch(Step(w, e), rest)
    ensures QueueLed(w, [e] + rest, i) <==> (e == Lab(StartInst(i)) ==> i in w.dirty) && QueueLed(Step(w, e), rest, i)
  {
    hide Step;
    assert ([e] + rest)[1..] == rest;
  }

  lemma {:induction false} WatchAppend(w: Watched, a: seq<Event>, b: seq<Event>)
    ensures Watch(w, a + b) == Watch(Watch(w, a), b)
    decreases |a|
  {
    hide Step;
    if a == [] {
      assert a + b == b;
    } else {
      assert (a + b)[1..] == a[1..] + b;
      WatchAppend(Step(w, a[0]), a[1..], b);
    }
  }

  /** One pass that the queue starts and that meets no failure. */
  lemma QueuedPass(w: Watched, i: Key) returns (events: seq<Event>)
    requires i in w.dirty && i !in w.sys.ip
    ensures QueueLed(w, events, i) && |events| <= 11
    ensures Watch(w, events).sys == InstEnd(w.sys, i, I.Finish(w.sys.st, i, I.Get, NONE, 0))
  {
    hide Run, I.Finish, Step;
    var acts := InstReconcileIsRun(w.sys, i, NONE);
    events := Lifted(acts);
    LiftedSteps(acts);
    WatchIsRun(w, events);
    LiftedLength(acts);
    assert events == [Lab(StartInst(i))] + Lifted(acts[1..]);
    CallsLed(Step(w, Lab(StartInst(i))), acts[1..], i);
    WatchCons(w, Lab(StartInst(i)), Lifted(acts[1..]), i);
  }

  lemma {:induction false} LiftedLength(acts: seq<Action>)
    ensures |Lifted(acts)| == |acts|
  {
    if acts != [] { LiftedLength(acts[1..]); }
  }

  lemma {:induction false} LedAppend(w: Watched, a: seq<Event>, b: seq<Event>, i: Key)
    requires QueueLed(w, a, i) && QueueLed(Watch(w, a), b, i)
    ensures QueueLed(w, a + b, i)
    decreases |a|
  {
    hide Step;
    if a == [] {
      assert a + b == b;
    } else {
      assert (a + b)[1..] == a[1..] + b;
      LedAppend(Step(w, a[0]), a[1..], b, i);
    }
  }

  /** Until the timer rings. */
  lemma Rings(w: Watched, i: Key, at: int) returns (wait: seq<Event>)
    requires i in w.timers && w.timers[i] <= at && w.sys.st.now <= at
    ensures |wait| == 2 && QueueLed(w, wait, i)
    ensures var u := Watch(w, wait);
            && i in u.dirty && w.sys.st.now <= u.sys.st.now <= at
            && u.sys == w.sys.(st := w.sys.st.(now := u.sys.st.now))
  {
    var dt := if w.timers[i] > w.sys.st.now then w.timers[i] - w.sys.st.now else 0;
    var a, b := Lab(Tick(dt)), FireInst(i);
    var v := Step(w, a);
    assert Changed(w.sys.st, Do(w.sys, Tick(dt)).st) == {};
    var u := Step(v, b);
    wait := [a, b];
    assert wait == [a] + ([b] + []);
    hide Step, Do;
    WatchCons(w, a, [b] + [], i);
    WatchCons(v, b, [], i);
    assert Watch(u, []) == u && QueueLed(u, [], i);
  }

  /** The InstanceLab waits at rest or in the queue, and its parent has come to say Running. */
  ghost predicate Waits(w: Watched, i: Key, n: string)
  {
    var s := w.sys.st;
    && Open(s, i, NONE, n) && i !in w.sys.ip && s.insts[i].status.phase == Pending
    && n in s.spaces && !s.spaces[n].terminating
  }

  /**
   From every state of every run in which an InstanceLab waits and could be placed: the queue starts
   a pass that, if it meets no failure, places every child its spec calls for, and the InstanceLab
   waits no longer; at most five seconds pass.
   */
  lemma QueuePlaces(w: Watched, events: seq<Event>, i: Key, n: string) returns (more: seq<Event>)
    requires Fresh(w) && Waits(Watch(w, events), i, n)
    ensures var u := Watch(w, events);
            var t := Watch(w, events + more).sys.st;
            && QueueLed(u, more, i) && |more| <= 13
            && u.sys.st.now <= t.now <= u.sys.st.now + 5_000_000_000
            && i in t.insts && t.insts[i].status.phase != Pending
            && n in t.spaces
            && forall kind: Kind :: CallsFor(u.sys.st.insts[i].spec, kind) ==>
                 ObjectKey(kind, u.sys.st.names.child(kind, i.name)) in t.spaces[n].objects
  {
    hide Watch, QueueLed, I.Finish, CallsFor, Step;
    var u := Watch(w, events);
    if i in u.dirty {
      more := QueuedPass(u, i);
      PassPlaces(u.sys.st, i, n);
    } else {
      NoForgottenInstance(w, events, i);
      var wait := Rings(u, i, u.sys.st.now + 5_000_000_000);
      var v := Watch(u, wait);
      var pass := QueuedPass(v, i);
      more := wait + pass;
      WatchAppend(u, wait, pass);
      LedAppend(u, wait, pass, i);
      PassPlaces(v.sys.st, i, n);
    }
    WatchAppend(w, events, more);
  }

  lemma PassPlaces(s: Store, i: Key, n: string)
    requires Open(s, i, NONE, n) && n in s.spaces && !s.spaces[n].terminating
    ensures var t := I.Finish(s, i, I.Get, NONE, 0).st;
            && i in t.insts && t.insts[i].status.phase != Pending && n in t.spaces && t.now == s.now
            && forall kind: Kind :: CallsFor(s.insts[i].spec, kind) ==>
                 ObjectKey(kind, s.names.child(kind, i.name)) in t.spaces[n].objects
  {
    hide I.Finish, CallsFor;
    PlacesExactlyWanted(s, i, NONE, n);
    PlacedTells(s, i, NONE, n);
    PassKeepsNow(s, i, I.Get, 0);
  }

  lemma {:induction false} PassKeepsNow(s: Store, i: Key, p: I.Pass, calls: nat)
    ensures I.Finish(s, i, p, NONE, calls).st.now == s.now
    decreases I.Rank(p)
  {
    hide I.Call, Perform;
    var out := I.Call(s, i, p, NONE(calls));
    NowStays(s, out.write);
    if out.then_.Next? {
      PassKeepsNow(Perform(s, out.write), i, out.then_.pass, if I.Silent(p) then calls else calls + 1);
    }
  }
}
