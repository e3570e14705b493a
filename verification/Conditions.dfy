/**
 Condition upkeep: `SetCondition` keeps the list of status conditions that every
 reconciler reports. The reconcilers update the list in place; `ConditionList` does the
 same and is proved against the function `Set`.
 */
module Conditions {
  import opened Prelude

  /** One status condition; `status` is true for "True" and false for "False". */
  datatype Condition = Condition(kind: string, status: bool, reason: string, message: string, since: int)

  /** The stored condition after a report: the timestamp moves only when the status flips. */
  function Merge(was: Condition, report: Condition): Condition
  {
    report.(since := if was.status == report.status then was.since else report.since)
  }

  /** The list after reporting `c`: the first condition of its kind is updated, or `c` is appended. */
  function Set(cs: seq<Condition>, c: Condition): seq<Condition>
  {
    if cs == [] then [c]
    else if cs[0].kind == c.kind then [Merge(cs[0], c)] + cs[1..]
    else [cs[0]] + Set(cs[1..], c)
  }

  /** What a reader of the status finds under `kind`. */
  function Lookup(cs: seq<Condition>, kind: string): Option<Condition>
  {
    if cs == [] then None
    else if cs[0].kind == kind then Some(cs[0])
    else Lookup(cs[1..], kind)
  }

  predicate IsTrue(cs: seq<Condition>, kind: string)
  {
    Lookup(cs, kind).Some? && Lookup(cs, kind).value.status
  }

  ghost predicate UniqueKinds(cs: seq<Condition>)
  {
    forall i, j :: 0 <= i < j < |cs| ==> cs[i].kind != cs[j].kind
  }

  lemma {:induction false} LookupFinds(cs: seq<Condition>, kind: string)
    ensures Lookup(cs, kind).None? <==> forall i :: 0 <= i < |cs| ==> cs[i].kind != kind
    ensures Lookup(cs, kind).Some? ==> Lookup(cs, kind).value in cs && Lookup(cs, kind).value.kind == kind
  {
    if cs != [] && cs[0].kind != kind {
      LookupFinds(cs[1..], kind);
      assert forall i :: 0 < i < |cs| ==> cs[i] == cs[1..][i - 1];
    }
  }

  /** A report is found again under its own kind, and changes nothing a reader finds elsewhere. */
  lemma {:induction false} SetLookup(cs: seq<Condition>, c: Condition, kind: string)
    ensures Lookup(Set(cs, c), kind) ==
            if kind != c.kind then Lookup(cs, kind)
            else match Lookup(cs, kind)
                 case None => Some(c)
                 case Some(was) => Some(Merge(was, c))
  {
    if cs != [] && cs[0].kind != c.kind {
      SetLookup(cs[1..], c, kind);
    }
  }

  /** Reporting keeps the condition types unique, keeps their order, and appends at most one. */
  lemma {:induction false} SetKeepsUnique(cs: seq<Condition>, c: Condition)
    requires UniqueKinds(cs)
    ensures UniqueKinds(Set(cs, c))
    ensures |cs| <= |Set(cs, c)| <= |cs| + 1
    ensures forall i :: 0 <= i < |cs| ==> Set(cs, c)[i].kind == cs[i].kind
    ensures |Set(cs, c)| == |cs| + 1 ==> Set(cs, c)[|cs|] == c && Lookup(cs, c.kind).None?
  {
    if cs != [] && cs[0].kind != c.kind {
      var rest := cs[1..];
      assert UniqueKinds(rest) by {
        forall i, j | 0 <= i < j < |rest| ensures rest[i].kind != rest[j].kind {
          assert rest[i] == cs[i + 1] && rest[j] == cs[j + 1];
        }
      }
      SetKeepsUnique(rest, c);
      var now := Set(rest, c);
      forall i | 0 <= i < |now| ensures now[i].kind != cs[0].kind {
        if i < |rest| {
          assert now[i].kind == rest[i].kind == cs[i + 1].kind;
        }
      }
    }
  }

  /** lastTransitionTime of a condition moves exactly when its status flips. */
  lemma {:induction false} TimestampMovesOnFlip(cs: seq<Condition>, c: Condition)
    requires Lookup(cs, c.kind).Some?
    ensures var was := Lookup(cs, c.kind).value;
            var now := Lookup(Set(cs, c), c.kind);
            now.Some?
            && now.value.since == (if was.status == c.status then was.since else c.since)
            && now.value.status == c.status && now.value.reason == c.reason && now.value.message == c.message
  {
    SetLookup(cs, c, c.kind);
    LookupFinds(cs, c.kind);
  }

  /** The same report made again at any later time changes nothing, whatever the clock says. */
  lemma {:induction false} SetIdempotent(cs: seq<Condition>, c: Condition, later: int)
    ensures Set(Set(cs, c), c.(since := later)) == Set(cs, c)
  {
    if cs != [] && cs[0].kind != c.kind {
      SetIdempotent(cs[1..], c, later);
      assert Set(cs, c)[1..] == Set(cs[1..], c);
    }
  }

  /** If the list already answers a report, making it changes nothing. */
  lemma {:induction false} SetNoChange(cs: seq<Condition>, c: Condition)
    requires Lookup(cs, c.kind).Some? && Merge(Lookup(cs, c.kind).value, c) == Lookup(cs, c.kind).value
    ensures Set(cs, c) == cs
  {
    if cs[0].kind != c.kind {
      SetNoChange(cs[1..], c);
    }
  }

  /** Conditions of other kinds in front are passed over. */
  lemma {:induction false} SetSkips(cs: seq<Condition>, c: Condition, i: nat)
    requires i <= |cs| && forall j :: 0 <= j < i ==> cs[j].kind != c.kind
    ensures Set(cs, c) == cs[..i] + Set(cs[i..], c)
  {
    if i == 0 {
      assert cs[0..] == cs;
    } else {
      SetSkips(cs[1..], c, i - 1);
      assert cs[1..][i - 1..] == cs[i..];
      assert cs[..i] == [cs[0]] + cs[1..][..i - 1];
    }
  }

  /** The condition slice that `SetCondition` reaches through a pointer. */
  class ConditionList {
    var items: seq<Condition>

    constructor (cs: seq<Condition>)
      ensures items == cs
    {
      items := cs;
    }

    /** Finds the condition by index, then updates it in place or appends. */
    method SetCondition(kind: string, status: bool, reason: string, message: string, now: int)
      modifies this
      ensures items == Set(old(items), Condition(kind, status, reason, message, now))
    {
      ghost var report := Condition(kind, status, reason, message, now);
      var i := 0;
      while i < |items| && items[i].kind != kind
        invariant 0 <= i <= |items|
        invariant items == old(items)
        invariant forall j :: 0 <= j < i ==> items[j].kind != kind
      {
        i := i + 1;
      }
      SetSkips(items, report, i);
      if i == |items| {
        items := items + [Condition(kind, status, reason, message, now)];
      } else {
        var stored := items[i];
        if stored.status != status {
          stored := stored.(status := status, since := now);
        }
        stored := stored.(reason := reason, message := message);
        items := items[..i] + [stored] + items[i + 1..];
      }
    }
  }
}
