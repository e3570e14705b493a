/**
 Whole passes over a notebook. What the policies decide at their readings of the clock, and
 what a pass that meets no failure leaves, however much time goes by between its steps: the
 notebook purged, or healed; paused if a policy fired. And passes come to rest: of any number
 of them, at most three change something.
 */
module NotebookPasses {
  import opened Prelude
  import opened Durations
  import opened PodBuild
  import opened NotebookStore
  import opened NotebookController
  import opened NotebookHealing
  import D = NotebookDeadlines

  // ----- policies ---------------------------------------------------------------------------

  /** The readings of the clock, one for each policy. */
  datatype Readings = Readings(purge: int, idle: int, lifespan: int)

  predicate Ordered(from: int, c: Readings, to: int)
  {
    from <= c.purge <= c.idle <= c.lifespan <= to
  }

  datatype Decision = Purge | Go(nb: Notebook, wait: int)

  predicate PurgeDue(nb: Notebook, now: int)
  {
    PurgeArmed(nb) && Since(now, ActiveAt(nb)) >= PurgeLimit(nb)
  }

  predicate IdleDue(nb: Notebook, now: int)
  {
    IdleArmed(nb) && Since(now, ActiveAt(nb)) >= IdleLimit(nb)
  }

  predicate LifespanDue(nb: Notebook, now: int)
  {
    LifespanArmed(nb) && Since(now, nb.created) >= LifespanLimit(nb)
  }

  function PausedOf(nb: Notebook): Notebook
  {
    nb.(spec := nb.spec.(replicas := Some(0)))
  }

  function PurgeWait(nb: Notebook, now: int): int
  {
    if PurgeArmed(nb) then Remaining(now, ActiveAt(nb), PurgeLimit(nb)) else 0
  }

  function IdleWait(nb: Notebook, now: int, wait: int): int
  {
    if IdleArmed(nb) && !IdleDue(nb, now) then Sooner(wait, Remaining(now, ActiveAt(nb), IdleLimit(nb))) else wait
  }

  function LifespanWait(nb: Notebook, now: int, wait: int): int
  {
    if LifespanArmed(nb) && !LifespanDue(nb, now)
    then Sooner(wait, Remaining(now, nb.created, LifespanLimit(nb))) else wait
  }

  /** The three policies, each at its reading of the clock, in the order of the program. */
  function Decide(nb: Notebook, c: Readings): Decision
  {
    if PurgeDue(nb, c.purge) then Purge
    else Go(if IdleDue(nb, c.idle) || LifespanDue(nb, c.lifespan) then PausedOf(nb) else nb,
            LifespanWait(nb, c.lifespan, IdleWait(nb, c.idle, PurgeWait(nb, c.purge))))
  }

  /** A policy that is armed and has not fired, the time it has left, and the instant at which it will. */
  ghost predicate Pending(nb: Notebook, c: Readings, left: int, at: int)
  {
    || (PurgeArmed(nb) && at == ActiveAt(nb) + PurgeLimit(nb) && left == at - c.purge)
    || (IdleArmed(nb) && !IdleDue(nb, c.idle) && at == ActiveAt(nb) + IdleLimit(nb) && left == at - c.idle)
    || (LifespanArmed(nb) && !LifespanDue(nb, c.lifespan) && at == nb.created + LifespanLimit(nb)
        && left == at - c.lifespan)
  }

  /** Nothing of the notebook happened after this instant. */
  predicate PastAt(nb: Notebook, now: int) { nb.created <= now && ActiveAt(nb) <= now }

  /** Whether a policy fires is decided by the calendar, not by the arithmetic. */
  lemma DueExactly(nb: Notebook, now: int)
    ensures now >= ActiveAt(nb) ==> (PurgeDue(nb, now) <==> PurgeArmed(nb) && now >= ActiveAt(nb) + PurgeLimit(nb))
    ensures now >= ActiveAt(nb) ==> (IdleDue(nb, now) <==> IdleArmed(nb) && now >= ActiveAt(nb) + IdleLimit(nb))
    ensures now >= nb.created ==>
              (LifespanDue(nb, now) <==> LifespanArmed(nb) && now >= nb.created + LifespanLimit(nb))
  {
    LimitInRange(nb);
    if now >= ActiveAt(nb) {
      ReachedExactly(now, ActiveAt(nb), PurgeLimit(nb));
      ReachedExactly(now, ActiveAt(nb), IdleLimit(nb));
    }
    if now >= nb.created {
      ReachedExactly(now, nb.created, LifespanLimit(nb));
    }
  }

  lemma LimitInRange(nb: Notebook)
    ensures IsInt64(PurgeLimit(nb)) && IsInt64(IdleLimit(nb)) && IsInt64(LifespanLimit(nb))
  {
  }

  /**
   The delay is 0 exactly when nothing is pending, and otherwise the least time that a pending
   policy has left: 0 as "unset" is as good as an optional minimum.
   */
  lemma WaitIsMinimum(nb: Notebook, c: Readings)
    requires PastAt(nb, c.purge) && Ordered(c.purge, c, c.lifespan) && Decide(nb, c).Go?
    ensures var wait := Decide(nb, c).wait;
            && wait >= 0
            && (wait == 0 <==> forall left, at :: !Pending(nb, c, left, at))
            && (wait > 0 ==> exists at :: Pending(nb, c, wait, at))
            && (forall left, at :: Pending(nb, c, left, at) ==> 0 < wait <= left)
  {
    hide PurgeLimit, IdleLimit, LifespanLimit;
    LimitInRange(nb);
    if PurgeArmed(nb) {
      D.Counts(c.purge, ActiveAt(nb), PurgeLimit(nb));
      var at := ActiveAt(nb) + PurgeLimit(nb);
      assert Pending(nb, c, at - c.purge, at);
    }
    if IdleArmed(nb) && !IdleDue(nb, c.idle) {
      D.Counts(c.idle, ActiveAt(nb), IdleLimit(nb));
      var at := ActiveAt(nb) + IdleLimit(nb);
      assert Pending(nb, c, at - c.idle, at);
    }
    if LifespanArmed(nb) && !LifespanDue(nb, c.lifespan) {
      D.Counts(c.lifespan, nb.created, LifespanLimit(nb));
      var at := nb.created + LifespanLimit(nb);
      assert Pending(nb, c, at - c.lifespan, at);
    }
    hide Remaining, Since;
  }

  // ----- a pass that meets no failure -----------------------------------------------------------

  /** No failure, and any amount of time before each step. */
  function Smooth(ticks: nat -> nat): Script
  {
    Script(_ => false, ticks)
  }

  function PassFrom(s: Store, p: Pass, ticks: nat -> nat, steps: nat): Finished
  {
    Finish(s, p, Smooth(ticks), steps)
  }

  /** The store after a pass that meets no failure. */
  function WholePass(s: Store, ticks: nat -> nat): Store { PassFrom(s, Get, ticks, 0).st }

  /** Nothing but the clock differs. */
  ghost predicate SameButTime(s: Store, t: Store) { t == s.(now := t.now) && t.now >= s.now }

  /** The pass holds the stored object and has seen to everything so far. */
  ghost predicate OnTrack(s: Store, p: Pass)
  {
    s.notebook == D.Held(p) && Seen(s, p, true)
  }

  predicate PastPolicies(p: Pass)
  {
    p.GetChild? || p.MakeChild? || p.GetDeploy? || p.MakeDeploy? || p.PatchDeploy?
    || p.ReadDeploy? || p.ReadToken? || p.WriteStatus?
  }

  lemma ChildOnTrack(s: Store, p: Pass)
    requires (p.GetChild? || (p.MakeChild? && p.child !in s.children)) && OnTrack(s, p)
    ensures var out := Call(s, p, false);
            && out.then_.Next? && OnTrack(Perform(s, out.write), out.then_.pass)
            && (var q := out.then_.pass;
                && PastPolicies(q) && !q.MakeDeploy? && q.nb == p.nb && q.wait == p.wait
                && (q.MakeChild? ==> q.child !in Perform(s, out.write).children))
  {
    hide Wanted, DefaultToken, Matches;
    match p.child { case Pvc => case Secret => case Service => case Ingress => }
  }

  lemma DeployOnTrack(s: Store, p: Pass)
    requires (p.GetDeploy? || (p.MakeDeploy? && s.deploy.None?) || p.PatchDeploy?) && OnTrack(s, p)
    ensures var out := Call(s, p, false);
            && out.then_.Next? && OnTrack(Perform(s, out.write), out.then_.pass)
            && (var q := out.then_.pass;
                && PastPolicies(q) && !q.MakeChild? && q.nb == p.nb && q.wait == p.wait
                && (q.MakeDeploy? ==> Perform(s, out.write).deploy.None?))
  {
    hide BuildTemplate;
    match p { case GetDeploy(_, _, _) => case MakeDeploy(_, _, _) => case PatchDeploy(_, _, _, _) => }
  }

  lemma ReportOnTrack(s: Store, p: Pass)
    requires (p.ReadDeploy? || p.ReadToken?) && OnTrack(s, p)
    ensures var out := Call(s, p, false);
            && out.then_.Next? && OnTrack(Perform(s, out.write), out.then_.pass)
            && (var q := out.then_.pass;
                (q.ReadToken? || q.WriteStatus?) && q.nb == p.nb && q.wait == p.wait)
  {
    hide BuildTemplate, DefaultToken, AccessUrl;
  }

  /** What a pass knows does not depend on the time. */
  lemma OnTrackLater(s: Store, t: Store, p: Pass)
    requires t == s.(now := t.now)
    ensures OnTrack(t, p) == OnTrack(s, p)
  {
    hide BuildTemplate, AccessUrl, PhaseOf;
  }

  lemma StatusHeals(s: Store, p: Pass, ticks: nat -> nat, steps: nat)
    requires p.WriteStatus? && OnTrack(s, p)
    ensures var f := PassFrom(s, p, ticks, steps);
            && f.verdict == Done(p.wait) && f.st.notebook.Some? && f.st.notebook.value.spec == p.nb.spec
            && f.st.now >= s.now && Healed(f.st, f.st.notebook.value, true)
  {
    hide Finish;
    Unfold(s, p, Smooth(ticks), steps);
  }

  /** A pass that may go on: what it is about to create is not there. */
  ghost predicate Creates(s: Store, p: Pass)
  {
    PastPolicies(p) && (p.MakeChild? ==> p.child !in s.children) && (p.MakeDeploy? ==> s.deploy.None?)
  }

  lemma NextOnTrack(s: Store, p: Pass)
    requires Creates(s, p) && OnTrack(s, p) && !p.WriteStatus?
    ensures var out := Call(s, p, false);
            var t := Perform(s, out.write);
            && out.then_.Next? && OnTrack(t, out.then_.pass) && Creates(t, out.then_.pass)
            && out.then_.pass.nb == p.nb && out.then_.pass.wait == p.wait
            && t.now == s.now && Rank(out.then_.pass) < Rank(p)
  {
    CallAdvances(s, p, false);
    NowKept(s, Call(s, p, false).write);
    hide Call, Perform, OnTrack;
    if p.GetChild? || p.MakeChild? {
      ChildOnTrack(s, p);
    } else if p.ReadDeploy? || p.ReadToken? {
      ReportOnTrack(s, p);
    } else {
      DeployOnTrack(s, p);
    }
  }

  /** From the children on, nothing stands in the way: the pass ends, with the notebook healed. */
  lemma {:induction false} ChildrenHeal(s: Store, p: Pass, ticks: nat -> nat, steps: nat)
    requires Creates(s, p) && OnTrack(s, p)
    ensures var f := PassFrom(s, p, ticks, steps);
            && f.verdict == Done(p.wait) && f.st.notebook.Some? && f.st.notebook.value.spec == p.nb.spec
            && f.st.now >= s.now && Healed(f.st, f.st.notebook.value, true)
    decreases Rank(p)
  {
    hide Call, Finish, OnTrack, Healed, Perform;
    if p.WriteStatus? {
      StatusHeals(s, p, ticks, steps);
    } else {
      var u := Later(s, ticks(steps));
      OnTrackLater(s, u, p);
      NextOnTrack(u, p);
      Unfold(s, p, Smooth(ticks), steps);
      NothingHappens(u);
      var out := Call(u, p, false);
      ChildrenHeal(Perform(u, out.write), out.then_.pass, ticks, steps + 1);
    }
  }

  lemma NowKept(s: Store, w: Write)
    ensures Perform(s, w).now == s.now
  {
  }

  // ----- the policies of such a pass --------------------------------------------------------------

  /** The store once a policy has been looked at: paused or not, some time later. */
  ghost predicate After(s: Store, nb: Notebook, t: Store)
  {
    Current(t, nb) && t.now >= s.now && t == Perform(s.(now := t.now), PutNotebook(nb))
  }

  lemma IdleStep(s: Store, nb: Notebook, wait: int, began: int, ticks: nat -> nat, steps: nat)
    returns (now: int, t: Store, next: nat)
    requires Current(s, nb)
    ensures var nb1 := if IdleDue(nb, now) then PausedOf(nb) else nb;
            && s.now <= now <= t.now && After(s, nb1, t)
            && PassFrom(s, CheckIdle(nb, wait, began), ticks, steps) ==
               PassFrom(t, CheckLifespan(nb1, IdleWait(nb, now, wait), began), ticks, next)
  {
    hide Finish, Remaining, IdleLimit, Since;
    Unfold(s, CheckIdle(nb, wait, began), Smooth(ticks), steps);
    t, next := s, steps;
    if IdleArmed(nb) {
      t, next := Later(s, ticks(steps)), steps + 1;
    }
    now := t.now;
    if IdleDue(nb, now) {
      Unfold(t, PauseIdle(nb, wait, began), Smooth(ticks), next);
      t, next := Perform(Later(t, ticks(next)), PutNotebook(PausedOf(nb))), next + 1;
    }
  }

  lemma LifespanStep(s: Store, nb: Notebook, wait: int, began: int, ticks: nat -> nat, steps: nat)
    returns (now: int, t: Store, next: nat)
    requires Current(s, nb)
    ensures var nb1 := if LifespanDue(nb, now) then PausedOf(nb) else nb;
            && s.now <= now <= t.now && After(s, nb1, t)
            && PassFrom(s, CheckLifespan(nb, wait, began), ticks, steps) ==
               PassFrom(t, GetChild(nb1, LifespanWait(nb, now, wait), began, FirstChild(nb1)), ticks, next)
  {
    hide Finish, Remaining, LifespanLimit, Since;
    Unfold(s, CheckLifespan(nb, wait, began), Smooth(ticks), steps);
    t, next := s, steps;
    if LifespanArmed(nb) {
      t, next := Later(s, ticks(steps)), steps + 1;
    }
    now := t.now;
    if LifespanDue(nb, now) {
      Unfold(t, PauseLifespan(nb, wait, began), Smooth(ticks), next);
      t, next := Perform(Later(t, ticks(next)), PutNotebook(PausedOf(nb))), next + 1;
    }
  }

  /** A purging pass deletes the PVC and the notebook, and touches nothing else. */
  lemma PurgeEnds(s: Store, nb: Notebook, ticks: nat -> nat, steps: nat)
    requires Current(s, nb)
    ensures var f := PassFrom(s, FindPvc(nb), ticks, steps);
            && f.verdict == Done(0) && f.st.now >= s.now
            && f.st == s.(notebook := None, children := s.children - {Pvc}, dirty := true, now := f.st.now)
  {
    hide Finish;
    var script := Smooth(ticks);
    var u := Later(s, ticks(steps));
    Unfold(s, FindPvc(nb), script, steps);
    if Pvc in s.children {
      Unfold(u, PurgePvc(nb), script, steps + 1);
      Unfold(Perform(Later(u, ticks(steps + 1)), DropChild(Pvc)), PurgeNotebook(nb), script, steps + 2);
    } else {
      Unfold(u, PurgeNotebook(nb), script, steps + 1);
    }
  }

  /** The read of the object and the purge policy. */
  lemma PurgeStep(s: Store, nb: Notebook, ticks: nat -> nat) returns (began: int, t: Store, next: nat)
    requires Current(s, nb)
    ensures SameButTime(s, t) && s.now <= began <= t.now
    ensures PassFrom(s, Get, ticks, 0) ==
            if PurgeDue(nb, t.now) then PassFrom(t, FindPvc(nb), ticks, next)
            else PassFrom(t, CheckIdle(nb, PurgeWait(nb, t.now), began), ticks, next)
  {
    hide Finish, Remaining, PurgeLimit, Since;
    var u := Later(s, ticks(0));
    began := u.now;
    Unfold(s, Get, Smooth(ticks), 0);
    Unfold(u, CheckPurge(nb, began), Smooth(ticks), 1);
    t, next := u, 1;
    if PurgeArmed(nb) {
      t, next := Later(u, ticks(1)), 2;
    }
  }

  /** Up to the children, a pass does what `Decide` says at its three readings of the clock. */
  lemma PoliciesDecide(s: Store, nb: Notebook, ticks: nat -> nat)
    returns (c: Readings, began: int, t: Store, next: nat)
    requires Current(s, nb)
    ensures Ordered(s.now, c, t.now) && s.now <= began <= c.purge
    ensures match Decide(nb, c)
            case Purge =>
              SameButTime(s, t) && PassFrom(s, Get, ticks, 0) == PassFrom(t, FindPvc(nb), ticks, next)
            case Go(nb1, wait) =>
              && After(s, nb1, t)
              && PassFrom(s, Get, ticks, 0) ==
                 PassFrom(t, GetChild(nb1, wait, began, FirstChild(nb1)), ticks, next)
  {
    hide Finish, Remaining, Since, PurgeLimit, IdleLimit, LifespanLimit;
    began, t, next := PurgeStep(s, nb, ticks);
    c := Readings(t.now, t.now, t.now);
    if !PurgeDue(nb, c.purge) {
      var wait1 := PurgeWait(nb, c.purge);
      var idle, u, mid := IdleStep(t, nb, wait1, began, ticks, next);
      var nb1 := if IdleDue(nb, idle) then PausedOf(nb) else nb;
      var lifespan;
      lifespan, t, next := LifespanStep(u, nb1, IdleWait(nb, idle, wait1), began, ticks, mid);
      c := Readings(c.purge, idle, lifespan);
      PauseKeepsPolicies(nb, lifespan, IdleWait(nb, idle, wait1));
      hide PassFrom, IdleWait, LifespanWait, IdleDue, LifespanDue;
    }
  }

  lemma PauseKeepsPolicies(nb: Notebook, now: int, wait: int)
    ensures var p := PausedOf(nb);
            && LifespanDue(p, now) == LifespanDue(nb, now) && LifespanWait(p, now, wait) == LifespanWait(nb, now, wait)
            && PausedOf(p) == p
  {
  }

  // ----- main results ----------------------------------------------------------------------------------

  /**
   A pass that meets no failure, however much time goes by in it, purges the notebook, or heals
   it, and asks for the delay that its readings of the clock call for.
   */
  lemma PassHeals(s: Store, nb: Notebook, ticks: nat -> nat) returns (c: Readings)
    requires Current(s, nb)
    ensures var f := PassFrom(s, Get, ticks, 0);
            && Ordered(s.now, c, f.st.now)
            && match Decide(nb, c)
               case Purge =>
                 && f.verdict == Done(0)
                 && f.st == s.(notebook := None, children := s.children - {Pvc}, dirty := true, now := f.st.now)
               case Go(nb1, wait) =>
                 && f.verdict == Done(wait)
                 && f.st.notebook.Some? && f.st.notebook.value.spec == nb1.spec
                 && Healed(f.st, f.st.notebook.value, true)
  {
    hide Finish, PurgeDue, IdleDue, LifespanDue, LifespanWait;
    var began, t, next;
    c, began, t, next := PoliciesDecide(s, nb, ticks);
    match Decide(nb, c) {
      case Purge => PurgeEnds(t, nb, ticks, next);
      case Go(nb1, wait) =>
        StartsOnTrack(t, nb1, wait, began);
        ChildrenHeal(t, GetChild(nb1, wait, began, FirstChild(nb1)), ticks, next);
        hide Decide, Healed;
    }
  }

  lemma StartsOnTrack(s: Store, nb: Notebook, wait: int, began: int)
    requires Current(s, nb)
    ensures OnTrack(s, GetChild(nb, wait, began, FirstChild(nb)))
  {
  }

  /** A policy that has fired stays fired. */
  lemma DueStaysDue(nb: Notebook, now: int, later: int)
    requires later >= now
    ensures PurgeDue(nb, now) ==> PurgeDue(nb, later)
    ensures IdleDue(nb, now) ==> IdleDue(nb, later)
    ensures LifespanDue(nb, now) ==> LifespanDue(nb, later)
  {
    hide PurgeLimit, IdleLimit, LifespanLimit;
  }

  /**
   Forced pause, end to end: a running notebook past its idle timeout or its lifespan has, after
   one pass, no replicas asked for, none set, and is pausing or paused; or the pass purged it,
   which it does only if the purge threshold was reached before it ended.
   */
  lemma ForcedPause(s: Store, nb: Notebook, ticks: nat -> nat)
    requires Current(s, nb)
    requires IdleDue(nb, s.now) || LifespanDue(nb, s.now)
    ensures var t := WholePass(s, ticks);
            if t.notebook.None? then PurgeDue(nb, t.now)
            else
              && t.notebook.value.spec == PausedOf(nb).spec
              && t.deploy.Some? && t.deploy.value.replicas == 0
              && t.notebook.value.status.phase == (if t.deploy.value.running == 0 then Paused else Pausing)
  {
    var c := PassHeals(s, nb, ticks);
    DueStaysDue(nb, s.now, c.idle);
    DueStaysDue(nb, s.now, c.lifespan);
    DueStaysDue(nb, c.purge, WholePass(s, ticks).now);
    hide Finish, PurgeDue, IdleDue, LifespanDue, LifespanWait;
  }

  /** On a healed notebook a pass past its policies writes nothing. */
  lemma {:induction false} HealedStays(s: Store, p: Pass, ticks: nat -> nat, steps: nat)
    requires PastPolicies(p) && !p.MakeChild? && !p.MakeDeploy? && (p.GetChild? ==> p.child in s.children)
    requires Current(s, p.nb) && Healed(s, p.nb, true)
    requires p.PatchDeploy? ==> s.deploy == Some(p.seen)
    requires p.ReadToken? ==> p.phase == p.nb.status.phase
    requires p.WriteStatus? ==> p.result == p.nb
    ensures SameButTime(s, PassFrom(s, p, ticks, steps).st)
    decreases Rank(p)
  {
    var u := Later(s, ticks(steps));
    assert Healed(u, p.nb, true) by { HealedLater(s, u, p.nb); }
    CallAdvances(u, p, false);
    HealedCall(u, p);
    hide Call, Finish, Healed;
    Unfold(s, p, Smooth(ticks), steps);
    NothingHappens(u);
    var out := Call(u, p, false);
    if out.then_.Next? {
      HealedStays(u, out.then_.pass, ticks, steps + 1);
    }
  }

  lemma HealedLater(s: Store, t: Store, nb: Notebook)
    requires t == s.(now := t.now)
    ensures Healed(t, nb, true) == Healed(s, nb, true)
  {
  }

  lemma HealedCall(s: Store, p: Pass)
    requires PastPolicies(p) && !p.MakeChild? && !p.MakeDeploy? && (p.GetChild? ==> p.child in s.children)
    requires Current(s, p.nb) && Healed(s, p.nb, true)
    requires p.PatchDeploy? ==> s.deploy == Some(p.seen)
    requires p.ReadToken? ==> p.phase == p.nb.status.phase
    requires p.WriteStatus? ==> p.result == p.nb
    ensures var out := Call(s, p, false);
            && Perform(s, out.write) == s
            && (out.then_.Next? ==>
                  var q := out.then_.pass;
                  && PastPolicies(q) && !q.MakeChild? && !q.MakeDeploy? && q.nb == p.nb
                  && (q.GetChild? ==> q.child in s.children)
                  && (q.PatchDeploy? ==> s.deploy == Some(q.seen))
                  && (q.ReadToken? ==> q.phase == q.nb.status.phase)
                  && (q.WriteStatus? ==> q.result == q.nb))
  {
    hide BuildTemplate, AccessUrl, DefaultToken;
    match p {
      case GetChild(_, _, _, c) => match c { case Pvc => case Secret => case Service => case Ingress => }
      case GetDeploy(_, _, _) => case PatchDeploy(_, _, _, _) =>
      case ReadDeploy(_, _, _) => case ReadToken(_, _, _, _) => case WriteStatus(_, _, _, _) =>
    }
  }

  /** How many more passes can change something. */
  ghost function Work(s: Store): nat
  {
    if s.notebook.None? then 0
    else if !Healed(s, s.notebook.value, true) then 3
    else if s.notebook.value.status.phase == Running then 2 else 1
  }

  /** Healed, and no policy fires: the pass changes nothing. */
  lemma RestingPass(s: Store, nb: Notebook, ticks: nat -> nat)
    requires Current(s, nb) && Healed(s, nb, true)
    requires WholePass(s, ticks).notebook.Some? && WholePass(s, ticks).notebook.value.spec == nb.spec
    requires nb.spec.replicas != Some(0) || nb.status.phase != Running
    ensures SameButTime(s, WholePass(s, ticks))
  {
    var c, began, t, next := PoliciesDecide(s, nb, ticks);
    match Decide(nb, c) {
      case Purge => PurgeEnds(t, nb, ticks, next);
      case Go(nb1, wait) =>
        StartsOnTrack(t, nb1, wait, began);
        ChildrenHeal(t, GetChild(nb1, wait, began, FirstChild(nb1)), ticks, next);
        assert nb1 == nb;
        PutSame(s.(now := t.now), nb);
        HealedLater(s, t, nb);
        HealedStays(t, GetChild(nb, wait, began, FirstChild(nb)), ticks, next);
    }
  }

  /** A pass that meets no failure changes nothing, or leaves less to do. */
  lemma PassSettles(s: Store, ticks: nat -> nat)
    ensures var t := WholePass(s, ticks); SameButTime(s, t) || Work(t) < Work(s)
  {
    hide Finish;
    if s.notebook.None? {
      Unfold(s, Get, Smooth(ticks), 0);
    } else {
      var nb := s.notebook.value;
      var c := PassHeals(s, nb, ticks);
      var t := WholePass(s, ticks);
      if t.notebook.Some? && Healed(s, nb, true) {
        HealedWithReplicas(s, nb);
        if t.notebook.value.spec == nb.spec {
          RestingPass(s, nb, ticks);
        } else {
          HealedWithReplicas(t, t.notebook.value);
        }
      }
      hide Healed, PurgeDue, IdleDue, LifespanDue, LifespanWait;
    }
  }

  /** A healed notebook with no replicas is not running. */
  lemma HealedWithReplicas(s: Store, nb: Notebook)
    requires Healed(s, nb, true)
    ensures nb.spec.replicas == Some(0) ==> nb.status.phase != Running
  {
  }

  lemma PutSame(s: Store, nb: Notebook)
    requires Current(s, nb)
    ensures Perform(s, PutNotebook(nb)) == s
  {
  }

  /** Passes, each with its own flow of time; the result counts those that change something. */
  ghost function Changing(s: Store, passes: seq<nat -> nat>): nat
    decreases |passes|
  {
    if passes == [] then 0
    else
      var t := WholePass(s, passes[0]);
      (if t == s.(now := t.now) then 0 else 1) + Changing(t, passes[1..])
  }

  /** However many passes run, and whenever: at most three change anything (heal, pause, purge). */
  lemma {:induction false} PassesSettle(s: Store, passes: seq<nat -> nat>)
    ensures Changing(s, passes) <= Work(s) <= 3
    decreases |passes|
  {
    hide WholePass, Healed;
    if passes != [] {
      var t := WholePass(s, passes[0]);
      PassSettles(s, passes[0]);
      WorkLater(s, t.now);
      hide Work;
      PassesSettle(t, passes[1..]);
    }
  }

  lemma WorkLater(s: Store, later: int)
    ensures Work(s.(now := later)) == Work(s)
  {
    if s.notebook.Some? { HealedLater(s, s.(now := later), s.notebook.value); }
  }
}
