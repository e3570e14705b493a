/** Where the notebook reconciler falls short of what it is for, and exactly when. */
module NotebookCounterexamples {
  import opened Durations
  import opened PodBuild
  import opened NotebookStore
  import opened NotebookController
  import opened NotebookSystem
  import opened NotebookPasses

  predicate IsField(n: int) { 0 < n <= MAX_INT32 }

  /** A threshold that is not exact has wrapped around to less than it should be. */
  lemma WrappedIsLess(n: int)
    requires IsField(n)
    ensures Days(n) <= n * DAY && Hours(n) <= n * HOUR && Minutes(n) <= n * MINUTE
    ensures Days(n) < n * DAY <==> n > 106_751
    ensures Hours(n) < n * HOUR <==> n > 2_562_047
    ensures Minutes(n) < n * MINUTE <==> n > 153_722_867
  {
    ThresholdsExact(n);
    assert Wrap64(n * 24) == n * 24;
  }

  /** The first instant from the start on at which a limit is reached. */
  function Instant(from: int, limit: int): int
  {
    if limit > 0 then from + limit else from
  }

  /** Never purged before its time exactly up to 106751 days, for every value of the 32-bit field. */
  lemma PurgeOnTimeExactly(nb: Notebook)
    requires nb.spec.lifecycle.Some? && IsField(Policy(nb).purgeDays)
    ensures (forall now :: now >= ActiveAt(nb) && PurgeDue(nb, now) ==> now >= ActiveAt(nb) + Policy(nb).purgeDays * DAY)
            <==> Policy(nb).purgeDays <= 106_751
  {
    var from, n := ActiveAt(nb), Policy(nb).purgeDays;
    WrappedIsLess(n);
    hide PurgeDue, Days;
    forall now | now >= from ensures PurgeDue(nb, now) <==> now >= from + PurgeLimit(nb) {
      DueExactly(nb, now);
    }
    if n > 106_751 {
      assert PurgeDue(nb, Instant(from, PurgeLimit(nb)));
    }
  }

  /** Never paused for idleness before its time exactly up to 153722867 minutes. */
  lemma IdleOnTimeExactly(nb: Notebook)
    requires nb.spec.lifecycle.Some? && IsField(Policy(nb).idleMinutes)
    requires nb.status.phase == Running
    ensures (forall now :: now >= ActiveAt(nb) && IdleDue(nb, now) ==> now >= ActiveAt(nb) + Policy(nb).idleMinutes * MINUTE)
            <==> Policy(nb).idleMinutes <= 153_722_867
  {
    var from, n := ActiveAt(nb), Policy(nb).idleMinutes;
    WrappedIsLess(n);
    hide IdleDue, Minutes;
    forall now | now >= from ensures IdleDue(nb, now) <==> now >= from + IdleLimit(nb) {
      DueExactly(nb, now);
    }
    if n > 153_722_867 {
      assert IdleDue(nb, Instant(from, IdleLimit(nb)));
    }
  }

  /** Never paused for its age before its time exactly up to 2562047 hours. */
  lemma LifespanOnTimeExactly(nb: Notebook)
    requires nb.spec.lifecycle.Some? && IsField(Policy(nb).lifespanHours)
    requires nb.status.phase == Running
    ensures (forall now :: now >= nb.created && LifespanDue(nb, now) ==> now >= nb.created + Policy(nb).lifespanHours * HOUR)
            <==> Policy(nb).lifespanHours <= 2_562_047
  {
    var from, n := nb.created, Policy(nb).lifespanHours;
    WrappedIsLess(n);
    hide LifespanDue, Hours;
    forall now | now >= from ensures LifespanDue(nb, now) <==> now >= from + LifespanLimit(nb) {
      DueExactly(nb, now);
    }
    if n > 2_562_047 {
      assert LifespanDue(nb, Instant(from, LifespanLimit(nb)));
    }
  }

  /**
   A notebook that may be inactive for 106752 to 213503 days is purged by its next pass, however
   active it is: the threshold has wrapped around to a negative duration.
   */
  lemma LongPurgeIsImmediate(s: Store, nb: Notebook, ticks: nat -> nat)
    requires Current(s, nb) && ActiveAt(nb) <= s.now
    requires nb.spec.lifecycle.Some? && 106_752 <= nb.spec.lifecycle.value.purgeDays <= 213_503
    ensures WholePass(s, ticks).notebook.None? && Pvc !in WholePass(s, ticks).children
  {
    hide Finish;
    LongInactivityWraps(nb.spec.lifecycle.value.purgeDays);
    var c := PassHeals(s, nb, ticks);
    assert PurgeDue(nb, c.purge);
  }

  lemma UrlTellsToken(name: string, a: string, b: string)
    requires AccessUrl(name, a) == AccessUrl(name, b)
    ensures a == b
  {
    var front := "https://" + name + ".local/lab?token=";
    assert a == (front + a)[|front|..] == (front + b)[|front|..] == b;
  }

  /**
   A failing read of the token is passed over. A notebook that carries the default URL already
   comes to rest with it, though its Secret holds another token, exactly if the read fails.
   */
  lemma UrlNeedsTheToken(s: System, fault: bool)
    requires s.pass.Some? && s.pass.value.ReadToken? && !s.st.dirty
    requires Current(s.st, s.pass.value.nb) && Secret in s.st.children && s.st.token != DefaultToken(s.st.name)
    requires s.pass.value.nb
             == Reported(s.st.name, s.pass.value.nb, s.pass.value.phase, DefaultToken(s.st.name))
    ensures var t := Do(Do(s, Step(fault)), Step(false));
            && t.pass.None? && t.st.notebook.Some?
            && (t.st.notebook.value.status.url != AccessUrl(t.st.name, t.st.token) <==> fault)
            && (t.st.dirty <==> !fault)
  {
    hide DefaultToken, AccessUrl, BuildTemplate;
    var name := s.st.name;
    if AccessUrl(name, s.st.token) == AccessUrl(name, DefaultToken(name)) {
      UrlTellsToken(name, s.st.token, DefaultToken(name));
    }
    var u := Do(s, Step(fault));
    assert u.st == s.st && u.pass.value.WriteStatus?;
  }
}
