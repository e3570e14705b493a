/**
 No lost deadline: whenever a stored NotebookLab has an armed policy (purge in any phase, idle
 timeout and lifespan in phase Running), its key is queued, or is being reconciled, or has a
 timer for no later than the earliest deadline. A pass that brings the notebook to Running
 arms two policies it has set no timer for; there the event of its own status write is what
 keeps the key queued.

 The timer counts from the end of a pass and the delay from its clock reads, so a timer can be
 late by as long as the pass took. That is the `slack`: no pass takes longer from its read
 of the object to its last call.
 */
module NotebookDeadlines {
  import opened Prelude
  import opened Durations
  import opened NotebookStore
  import opened NotebookController
  import opened NotebookSystem

  /** A timer that is at most `slack` late for every armed policy. */
  ghost predicate Covers(nb: Notebook, timer: Option<int>, slack: int)
  {
    && (PurgeArmed(nb) ==> timer.Some? && timer.value <= ActiveAt(nb) + PurgeLimit(nb) + slack)
    && (IdleArmed(nb) ==> timer.Some? && timer.value <= ActiveAt(nb) + IdleLimit(nb) + slack)
    && (LifespanArmed(nb) ==> timer.Some? && timer.value <= nb.created + LifespanLimit(nb) + slack)
  }

  /** Nothing that is stored happened in the future. */
  ghost predicate Past(s: Store)
  {
    s.notebook.Some? ==> s.notebook.value.created <= s.now && ActiveAt(s.notebook.value) <= s.now
  }

  // ----- what a pass has taken into account ------------------------------------------------

  ghost predicate PurgeCounted(nb: Notebook, wait: int, began: int)
  {
    wait >= 0 && (PurgeArmed(nb) ==> 0 < wait <= ActiveAt(nb) + PurgeLimit(nb) - began)
  }

  /** Idle timeout: counted, or the notebook is to have no replicas. */
  ghost predicate IdleCounted(nb: Notebook, wait: int, began: int)
  {
    IdleArmed(nb) ==> Replicas(nb.spec) == 0 || 0 < wait <= ActiveAt(nb) + IdleLimit(nb) - began
  }

  ghost predicate LifespanCounted(nb: Notebook, wait: int, began: int)
  {
    LifespanArmed(nb) ==> Replicas(nb.spec) == 0 || 0 < wait <= nb.created + LifespanLimit(nb) - began
  }

  ghost predicate AllCounted(nb: Notebook, wait: int, began: int)
  {
    PurgeCounted(nb, wait, began) && IdleCounted(nb, wait, began) && LifespanCounted(nb, wait, began)
  }

  /** What a status write changes: only phase, PVC name and URL, and Running only with replicas. */
  ghost predicate ReportOf(nb: Notebook, result: Notebook)
  {
    && result == nb.(status := result.status)
    && result.status.lastActive == nb.status.lastActive
    && (result.status.phase == Running ==> Replicas(nb.spec) != 0)
  }

  /** The object a pass holds, if it has read one. */
  function Held(p: Pass): Option<Notebook>
  {
    if p.Get? then None else Some(p.nb)
  }

  ghost predicate Accounts(p: Pass, now: int)
  {
    match p
    case CheckPurge(_, began) => began <= now
    case CheckIdle(nb, wait, began) => began <= now && PurgeCounted(nb, wait, began)
    case PauseIdle(nb, wait, began) => began <= now && PurgeCounted(nb, wait, began)
    case CheckLifespan(nb, wait, began) =>
      began <= now && PurgeCounted(nb, wait, began) && IdleCounted(nb, wait, began)
    case PauseLifespan(nb, wait, began) =>
      began <= now && PurgeCounted(nb, wait, began) && IdleCounted(nb, wait, began)
    case GetChild(nb, wait, began, _) => AllCounted(nb, wait, began)
    case MakeChild(nb, wait, began, _) => AllCounted(nb, wait, began)
    case GetDeploy(nb, wait, began) => AllCounted(nb, wait, began)
    case MakeDeploy(nb, wait, began) => AllCounted(nb, wait, began)
    case PatchDeploy(nb, wait, began, _) => AllCounted(nb, wait, began)
    case ReadDeploy(nb, wait, began) => AllCounted(nb, wait, began)
    case ReadToken(nb, wait, began, _) => AllCounted(nb, wait, began)
    case MakeToken(nb, wait, began, _) => AllCounted(nb, wait, began)
    case WriteStatus(nb, wait, began, _) => AllCounted(nb, wait, began)
    case _ => true
  }

  /** What holds of a pass even if the object has changed since. */
  ghost predicate Shaped(p: Pass)
  {
    match p
    case ReadToken(nb, _, _, phase) => phase == Running ==> Replicas(nb.spec) != 0
    case MakeToken(nb, _, _, phase) => phase == Running ==> Replicas(nb.spec) != 0
    case WriteStatus(nb, _, _, result) => ReportOf(nb, result)
    case _ => true
  }

  /** While nothing has queued the key again, the pass holds the stored object and has counted it. */
  ghost predicate Knows(s: Store, p: Pass)
  {
    Shaped(p) && (!s.dirty ==> (p.Get? || s.notebook == Held(p)) && Accounts(p, s.now))
  }

  ghost predicate Timely(s: System, slack: int)
  {
    && Past(s.st)
    && match s.pass
       case Some(p) => Knows(s.st, p)
       case None => !s.st.dirty && s.st.notebook.Some? ==> Covers(s.st.notebook.value, s.st.timer, slack)
  }

  /** No more than `slack` passes from the read of the object to the last call. */
  ghost predicate Punctual(s: System, a: Action, slack: int)
  {
    a.Step? && s.pass.Some? && s.pass.value.WriteStatus? ==> s.st.now <= s.pass.value.began + slack
  }

  ghost predicate PunctualRun(s: System, acts: seq<Action>, slack: int)
    decreases |acts|
  {
    acts != [] ==> Punctual(s, acts[0], slack) && PunctualRun(Do(s, acts[0]), acts[1..], slack)
  }

  // ----- every step -------------------------------------------------------------------------

  lemma Counts(now: int, from: int, limit: int)
    requires from <= now && IsInt64(limit) && Since(now, from) < limit
    ensures Remaining(now, from, limit) == from + limit - now > 0
  {
    ReachedExactly(now, from, limit);
  }

  /** A clock step takes its policy into account. */
  lemma ClockCounts(s: Store, p: Pass)
    requires Past(s) && Knows(s, p) && !s.dirty && Silent(p)
    ensures var t := Call(s, p, false).then_; t.Next? && Held(t.pass) == Held(p) && Accounts(t.pass, s.now)
  {
    var nb := p.nb;
    match p {
      case CheckPurge(_, began) =>
        if PurgeArmed(nb) && Since(s.now, ActiveAt(nb)) < PurgeLimit(nb) {
          Counts(s.now, ActiveAt(nb), PurgeLimit(nb));
        }
      case CheckIdle(_, wait, began) =>
        if IdleArmed(nb) && Since(s.now, ActiveAt(nb)) < IdleLimit(nb) {
          Counts(s.now, ActiveAt(nb), IdleLimit(nb));
        }
      case CheckLifespan(_, wait, began) =>
        if LifespanArmed(nb) && Since(s.now, nb.created) < LifespanLimit(nb) {
          Counts(s.now, nb.created, LifespanLimit(nb));
        }
    }
  }

  /** A pause is a change, unless the stored object is already paused. */
  lemma PauseKnows(s: Store, p: Pass, fault: bool)
    requires Knows(s, p) && (p.PauseIdle? || p.PauseLifespan?) && Call(s, p, fault).then_.Next?
    ensures var out := Call(s, p, fault); Knows(Perform(s, out.write), out.then_.pass)
  {
    hide PurgeLimit, IdleLimit, LifespanLimit;
  }

  /** Child calls leave what was counted as it is. */
  lemma ChildKnows(s: Store, p: Pass, fault: bool)
    requires Knows(s, p) && (p.GetChild? || p.MakeChild? || p.GetDeploy? || p.MakeDeploy? || p.PatchDeploy?)
    ensures var out := Call(s, p, fault); out.then_.Next? && Knows(Perform(s, out.write), out.then_.pass)
  {
    hide Wanted, Patched, AllCounted, DefaultToken;
  }

  lemma ReportKnows(s: Store, p: Pass, fault: bool)
    requires Knows(s, p) && (p.ReadDeploy? || p.ReadToken? || p.MakeToken?) && Call(s, p, fault).then_.Next?
    ensures var out := Call(s, p, fault); Knows(Perform(s, out.write), out.then_.pass)
  {
    hide AllCounted, DefaultToken, AccessUrl;
  }

  lemma OtherKnows(s: Store, p: Pass, fault: bool)
    requires p.Get? || p.FindPvc? || p.PurgePvc? || p.PurgeNotebook? || p.WriteStatus? || p.WriteFailed?
    requires Knows(s, p) && Call(s, p, fault).then_.Next?
    ensures var out := Call(s, p, fault); Knows(Perform(s, out.write), out.then_.pass)
  {
  }

  /** A step after which the pass goes on keeps what it knows. */
  lemma NextKnows(s: Store, p: Pass, fault: bool)
    requires Past(s) && Knows(s, p) && Call(s, p, fault).then_.Next?
    ensures var out := Call(s, p, fault); Knows(Perform(s, out.write), out.then_.pass)
  {
    if Silent(p) {
      SilentCall(s, p, fault);
      hide Call, Accounts, Shaped;
      if !s.dirty { ClockCounts(s, p); }
    } else {
      hide Call, Knows, Perform;
      if p.PauseIdle? || p.PauseLifespan? {
        PauseKnows(s, p, fault);
      } else if p.ReadDeploy? || p.ReadToken? || p.MakeToken? {
        ReportKnows(s, p, fault);
      } else if p.GetChild? || p.MakeChild? || p.GetDeploy? || p.MakeDeploy? || p.PatchDeploy? {
        ChildKnows(s, p, fault);
      } else {
        OtherKnows(s, p, fault);
      }
    }
  }

  /** A clock read writes nothing and cannot fail. */
  lemma SilentCall(s: Store, p: Pass, fault: bool)
    requires Silent(p)
    ensures Call(s, p, fault) == Call(s, p, false)
    ensures var out := Call(s, p, false); out.write == Nothing && out.then_.Next? && Shaped(out.then_.pass)
  {
  }

  /** At the end of a pass the key is queued, or its timer covers the stored object. */
  lemma LastCovers(s: System, fault: bool, slack: int)
    requires s.pass.Some? && Knows(s.st, s.pass.value) && Punctual(s, Step(fault), slack)
    requires !Call(s.st, s.pass.value, fault).then_.Next?
    ensures var t := Settle(s, Call(s.st, s.pass.value, fault));
            t.pass.None? && (!t.st.dirty && t.st.notebook.Some? ==> Covers(t.st.notebook.value, t.st.timer, slack))
  {
    hide PurgeLimit, IdleLimit, LifespanLimit;
    var p := s.pass.value;
    match p {
      case Get => case PurgeNotebook(_) => case ReadDeploy(_, _, _) => case WriteFailed(_) =>
      case PauseIdle(_, _, _) => case PauseLifespan(_, _, _) =>
      case WriteStatus(nb, wait, began, result) =>
        if !fault && Current(s.st, nb) { StatusCovers(s, slack); }
      case _ =>
    }
  }

  /** A status write that changes nothing: the phase it found is the one it computed. */
  lemma StatusCovers(s: System, slack: int)
    requires s.pass.Some? && s.pass.value.WriteStatus? && Knows(s.st, s.pass.value)
    requires Punctual(s, Step(false), slack) && Current(s.st, s.pass.value.nb)
    ensures var t := Settle(s, Call(s.st, s.pass.value, false));
            !t.st.dirty && t.st.notebook.Some? ==> Covers(t.st.notebook.value, t.st.timer, slack)
  {
    hide PurgeLimit, IdleLimit, LifespanLimit;
  }

  /** Nothing but time, the object and the queue matter to a resting key. */
  lemma OutsideKeepsTimely(s: System, a: Action, slack: int)
    requires Timely(s, slack)
    ensures Timely(s.(st := Perform(s.st, OutsideWrite(s.st, a))), slack)
  {
    hide Covers, Accounts;
  }

  lemma PastKept(s: Store, p: Pass, fault: bool)
    requires Past(s) && Knows(s, p)
    ensures Past(Perform(s, Call(s, p, fault).write))
  {
    hide Accounts;
  }

  lemma TimePasses(s: System, slack: int, later: int)
    requires Timely(s, slack) && later >= s.st.now
    ensures Timely(s.(st := s.st.(now := later)), slack)
  {
    hide Covers, PurgeLimit, IdleLimit, LifespanLimit;
  }

  lemma StepKeepsTimely(s: System, fault: bool, slack: int)
    requires Timely(s, slack) && Punctual(s, Step(fault), slack)
    ensures Timely(Do(s, Step(fault)), slack)
  {
    if s.pass.Some? {
      var p := s.pass.value;
      var out := Call(s.st, p, fault);
      PastKept(s.st, p, fault);
      if out.then_.Next? {
        NextKnows(s.st, p, fault);
        hide Call, Perform, Knows, Past;
      } else {
        LastCovers(s, fault, slack);
        PastSettles(s, out);
        hide Call, Perform, Knows, Past, Covers, Settle;
      }
    }
  }

  lemma PastSettles(s: System, out: Outcome)
    requires Past(Perform(s.st, out.write))
    ensures Past(Settle(s, out).st)
  {
  }

  lemma DoKeepsTimely(s: System, a: Action, slack: int)
    requires Timely(s, slack) && Punctual(s, a, slack)
    ensures Timely(Do(s, a), slack)
  {
    hide Covers, Accounts, Shaped, Call, Perform;
    match a {
      case Tick(dt) => TimePasses(s, slack, s.st.now + dt);
      case Fire =>
      case Start => FreshKnows(s.st.(dirty := false));
      case Step(fault) => StepKeepsTimely(s, fault, slack);
      case _ => OutsideKeepsTimely(s, a, slack);
    }
  }

  lemma FreshKnows(s: Store)
    ensures Knows(s, Get)
  {
  }

  lemma {:induction false} RunKeepsTimely(s: System, acts: seq<Action>, slack: int)
    requires Timely(s, slack) && PunctualRun(s, acts, slack)
    ensures Timely(Run(s, acts), slack)
    decreases |acts|
  {
    hide Do, Timely, Punctual;
    if acts != [] {
      DoKeepsTimely(s, acts[0], slack);
      RunKeepsTimely(Do(s, acts[0]), acts[1..], slack);
    }
  }

  /** No deadline of a stored notebook is lost, in any run. */
  lemma NoLostDeadline(s: System, acts: seq<Action>, slack: int)
    requires Initial(s) && PunctualRun(s, acts, slack)
    ensures var t := Run(s, acts);
            t.st.notebook.Some? && t.pass.None? && !t.st.dirty ==> Covers(t.st.notebook.value, t.st.timer, slack)
  {
    hide Run;
    RunKeepsTimely(s, acts, slack);
  }
}
