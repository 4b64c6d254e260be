/**
  The retention planner: two greedy passes over the log entries, oldest first, choose
  the shortest sufficient prefix of the entries that may be expired.
 */
module Retention {
  import opened Common
  import opened StoreModel

  datatype Entry = Entry(key: Key, stored: nat, updatedAt: int, eligible: bool, expired: bool)

  /** `cutoff` is the time at or before which an entry is too old. */
  datatype Policy = Policy(cutoff: Option<int>, cap: Option<nat>)

  datatype MaintenancePlan = MaintenancePlan(stored: nat, expire: nat, candidates: seq<Entry>)

  function Unexpired(entries: seq<Entry>): seq<Entry>
    decreases |entries|
  {
    if entries == [] then []
    else (if entries[0].expired then [] else [entries[0]]) + Unexpired(entries[1..])
  }

  /** The entries a plan may choose from, in their order. */
  function Expirable(entries: seq<Entry>): seq<Entry>
    decreases |entries|
  {
    if entries == [] then []
    else (if !entries[0].expired && entries[0].eligible then [entries[0]] else []) + Expirable(entries[1..])
  }

  function Total(entries: seq<Entry>): nat
    decreases |entries|
  {
    if entries == [] then 0 else entries[0].stored + Total(entries[1..])
  }

  /** The query's order and key: oldest first, each attempt once. */
  predicate WellOrdered(entries: seq<Entry>) {
    && (forall i, j :: 0 <= i < j < |entries| ==> entries[i].updatedAt <= entries[j].updatedAt)
    && (forall i, j :: 0 <= i < j < |entries| ==> entries[i].key != entries[j].key)
  }

  predicate TooOld(e: Entry, cutoff: Option<int>) {
    cutoff.Some? && e.updatedAt <= cutoff.value
  }

  /** How many of the oldest entries are too old. */
  function AgePrefix(entries: seq<Entry>, cutoff: Option<int>): (n: nat)
    ensures n <= |entries|
    decreases |entries|
  {
    if entries == [] || !TooOld(entries[0], cutoff) then 0 else 1 + AgePrefix(entries[1..], cutoff)
  }

  /** The fewest oldest entries whose removal brings `total` to the cap, or all of them. */
  function CapPrefix(entries: seq<Entry>, total: int, cap: Option<nat>): (n: nat)
    ensures n <= |entries|
    decreases |entries|
  {
    if entries == [] || cap.None? || total <= cap.value then 0
    else 1 + CapPrefix(entries[1..], total - entries[0].stored, cap)
  }

  function PlannedPrefix(entries: seq<Entry>, policy: Policy): (n: nat)
    ensures n <= |Expirable(entries)|
  {
    var live := Expirable(entries);
    Max(AgePrefix(live, policy.cutoff), CapPrefix(live, Total(Unexpired(entries)), policy.cap))
  }

  // What the two prefixes are

  /** On an ordered list the too old entries are exactly the age prefix. */
  lemma {:induction false} AgePrefixIsExact(entries: seq<Entry>, cutoff: Option<int>)
    requires forall i, j :: 0 <= i < j < |entries| ==> entries[i].updatedAt <= entries[j].updatedAt
    ensures forall i :: 0 <= i < |entries| ==> (TooOld(entries[i], cutoff) <==> i < AgePrefix(entries, cutoff))
    decreases |entries|
  {
    if entries != [] && TooOld(entries[0], cutoff) {
      AgePrefixIsExact(entries[1..], cutoff);
      assert forall i :: 1 <= i < |entries| ==> entries[i] == entries[1..][i - 1];
    }
  }

  /**
    Every shorter prefix leaves too much, and the cap prefix itself leaves too much only
    when nothing is left to remove.
   */
  lemma {:induction false} CapPrefixIsShortest(entries: seq<Entry>, total: int, cap: nat)
    ensures forall n :: 0 <= n < CapPrefix(entries, total, Some(cap)) ==> total - Total(entries[..n]) > cap
    ensures var n := CapPrefix(entries, total, Some(cap)); total - Total(entries[..n]) <= cap || n == |entries|
    decreases |entries|
  {
    if entries != [] && total > cap {
      var rest, left := entries[1..], total - entries[0].stored;
      CapPrefixIsShortest(rest, left, cap);
      forall n | 1 <= n <= |entries| ensures Total(entries[..n]) == entries[0].stored + Total(rest[..n - 1]) {
        assert entries[..n][1..] == rest[..n - 1];
      }
    }
  }

  lemma {:induction false} TotalOfParts(a: seq<Entry>, b: seq<Entry>)
    ensures Total(a + b) == Total(a) + Total(b)
    decreases |a|
  {
    if a == [] {
      assert a + b == b;
    } else {
      assert (a + b)[1..] == a[1..] + b;
      TotalOfParts(a[1..], b);
    }
  }

  lemma {:induction false} ExpirableIsPart(entries: seq<Entry>)
    ensures Total(Expirable(entries)) <= Total(Unexpired(entries))
    decreases |entries|
  {
    if entries != [] {
      ExpirableIsPart(entries[1..]);
      var e := entries[0];
      TotalOfParts(if !e.expired && e.eligible then [e] else [], Expirable(entries[1..]));
      TotalOfParts(if e.expired then [] else [e], Unexpired(entries[1..]));
      assert Total([e]) == e.stored;
    }
  }

  lemma {:induction false} ExpirableMembers(entries: seq<Entry>)
    ensures forall e :: e in Expirable(entries) <==> e in entries && !e.expired && e.eligible
    decreases |entries|
  {
    if entries != [] {
      ExpirableMembers(entries[1..]);
      assert entries == [entries[0]] + entries[1..];
    }
  }

  lemma OrderedCons(e: Entry, rest: seq<Entry>)
    requires WellOrdered(rest) && forall other :: other in rest ==> e.updatedAt <= other.updatedAt && e.key != other.key
    ensures WellOrdered([e] + rest)
  {
    assert forall i :: 0 <= i < |rest| ==> rest[i] in rest;
  }

  lemma OrderedTail(entries: seq<Entry>)
    requires WellOrdered(entries) && entries != []
    ensures WellOrdered(entries[1..])
    ensures forall other :: other in entries[1..] ==>
      entries[0].updatedAt <= other.updatedAt && entries[0].key != other.key
  {
    forall other | other in entries[1..]
      ensures entries[0].updatedAt <= other.updatedAt && entries[0].key != other.key
    {
      var i :| 0 <= i < |entries[1..]| && entries[1..][i] == other;
      assert entries[i + 1] == other;
    }
  }

  lemma {:induction false} ExpirableIsOrdered(entries: seq<Entry>)
    requires WellOrdered(entries)
    ensures WellOrdered(Expirable(entries))
    ensures forall e :: e in Expirable(entries) <==> e in entries && !e.expired && e.eligible
    decreases |entries|
  {
    hide WellOrdered;
    ExpirableMembers(entries);
    if entries != [] {
      OrderedTail(entries);
      ExpirableIsOrdered(entries[1..]);
      OrderedCons(entries[0], Expirable(entries[1..]));
      assert [] + Expirable(entries[1..]) == Expirable(entries[1..]);
    } else {
      NothingIsOrdered();
    }
  }

  lemma NothingIsOrdered()
    ensures WellOrdered([])
  {
  }

  lemma PrefixStep(entries: seq<Entry>, i: nat)
    requires i < |entries|
    ensures Total(entries[..i + 1]) == Total(entries[..i]) + entries[i].stored
    ensures Total(entries[..i + 1]) <= Total(entries)
  {
    assert entries[..i + 1] == entries[..i] + [entries[i]];
    TotalOfParts(entries[..i], [entries[i]]);
    assert entries == entries[..i + 1] + entries[i + 1..];
    TotalOfParts(entries[..i + 1], entries[i + 1..]);
  }

  function SaturatingSub(a: nat, b: nat): nat {
    if a < b then 0 else a - b
  }

  /** Pass one: every entry that is too old. */
  method AgePass(live: seq<Entry>, cutoff: Option<int>, stored: nat) returns (candidates: seq<Entry>, projected: nat)
    requires WellOrdered(live) && Total(live) <= stored
    ensures candidates == live[..AgePrefix(live, cutoff)]
    ensures projected == stored - Total(candidates)
  {
    AgePrefixIsExact(live, cutoff);
    candidates, projected := [], stored;
    var i := 0;
    while i < |live|
      invariant 0 <= i <= |live|
      invariant candidates == live[..if i < AgePrefix(live, cutoff) then i else AgePrefix(live, cutoff)]
      invariant projected == stored - Total(candidates)
    {
      if TooOld(live[i], cutoff) {
        PrefixStep(live, i);
        projected := SaturatingSub(projected, live[i].stored);
        candidates := candidates + [live[i]];
      }
      i := i + 1;
    }
  }

  /** Pass two: further oldest entries until the projection fits the cap. */
  method CapPass(live: seq<Entry>, aged: nat, cap: nat, stored: nat, given: seq<Entry>, projection: nat)
    returns (candidates: seq<Entry>)
    requires WellOrdered(live) && Total(live) <= stored
    requires aged <= |live| && given == live[..aged] && projection == stored - Total(given)
    ensures candidates == live[..Max(aged, CapPrefix(live, stored, Some(cap)))]
  {
    CapPrefixIsShortest(live, stored, cap);
    ghost var fit := CapPrefix(live, stored, Some(cap));
    var projected := projection;
    candidates := given;
    var i := 0;
    while i < |live|
      invariant 0 <= i <= |live|
      invariant candidates == live[..Max(aged, i)] && projected == stored - Total(candidates)
      invariant i <= aged || i <= fit
    {
      if projected <= cap {
        FitsExactly(live, aged, i, cap, stored);
        return;
      }
      TooMuchLeft(live, i, Max(aged, i), cap, stored);
      if i < aged {
        TakenKeyIsKnown(live, aged, i);
      }
      if exists c :: c in candidates && c.key == live[i].key {
        KnownKeyIsEarlier(live, Max(aged, i), i);
      } else {
        PrefixStep(live, i);
        projected := SaturatingSub(projected, live[i].stored);
        candidates := candidates + [live[i]];
      }
      i := i + 1;
    }
  }

  lemma KnownKeyIsEarlier(live: seq<Entry>, taken: nat, i: nat)
    requires WellOrdered(live) && taken <= |live| && i < |live|
    requires exists c :: c in live[..taken] && c.key == live[i].key
    ensures i < taken
  {
    var c :| c in live[..taken] && c.key == live[i].key;
    var j :| 0 <= j < taken && live[j] == c;
    assert j == i;
  }

  lemma TakenKeyIsKnown(live: seq<Entry>, taken: nat, i: nat)
    requires i < taken <= |live|
    ensures exists c :: c in live[..taken] && c.key == live[i].key
  {
    assert live[..taken][i] == live[i];
  }

  lemma TooMuchLeft(live: seq<Entry>, i: nat, taken: nat, cap: nat, stored: nat)
    requires i < |live| && i <= taken <= |live| && stored - Total(live[..taken]) > cap
    ensures i < CapPrefix(live, stored, Some(cap))
  {
    var fit := CapPrefix(live, stored, Some(cap));
    CapPrefixIsShortest(live, stored, cap);
    if fit <= taken {
      LongerPrefixLeavesLess(live, fit, taken);
    }
  }

  lemma FitsExactly(live: seq<Entry>, aged: nat, i: nat, cap: nat, stored: nat)
    requires i <= |live| && aged <= |live| && stored - Total(live[..Max(aged, i)]) <= cap
    requires i <= aged || i <= CapPrefix(live, stored, Some(cap))
    ensures Max(aged, i) == Max(aged, CapPrefix(live, stored, Some(cap)))
  {
    CapPrefixIsShortest(live, stored, cap);
  }

  /**
    `plan_log_maintenance`: the candidates are the oldest expirable entries, as many as
    age demands or the cap demands, whichever is more; the bytes are their sum.
   */
  method PlanLogMaintenance(entries: seq<Entry>, policy: Option<Policy>) returns (plan: MaintenancePlan)
    requires WellOrdered(entries)
    ensures plan.stored == Total(Unexpired(entries)) && plan.expire == Total(plan.candidates)
    ensures policy.None? ==> plan.candidates == []
    ensures policy.Some? ==> plan.candidates == Expirable(entries)[..PlannedPrefix(entries, policy.value)]
  {
    var stored := Total(Unexpired(entries));
    if policy.None? {
      return MaintenancePlan(stored, 0, []);
    }
    var live := Expirable(entries);
    ExpirableIsOrdered(entries);
    ExpirableIsPart(entries);
    var candidates, projected := AgePass(live, policy.value.cutoff, stored);
    if policy.value.cap.Some? {
      candidates := CapPass(live, AgePrefix(live, policy.value.cutoff), policy.value.cap.value, stored, candidates,
                            projected);
    }
    plan := MaintenancePlan(stored, Total(candidates), candidates);
  }

  /** Nothing in the planned prefix could have been spared, and nothing after it had to go. */
  lemma PlannedPrefixIsNecessary(entries: seq<Entry>, policy: Policy)
    requires WellOrdered(entries)
    ensures var live, n := Expirable(entries), PlannedPrefix(entries, policy);
            var total := Total(Unexpired(entries));
            && (forall i :: 0 <= i < n ==>
                  || (policy.cutoff.Some? && live[i].updatedAt <= policy.cutoff.value)
                  || (policy.cap.Some? && total - Total(live[..i]) > policy.cap.value))
            && (n < |live| && policy.cutoff.Some? ==> live[n].updatedAt > policy.cutoff.value)
            && (n < |live| && policy.cap.Some? ==> total - Total(live[..n]) <= policy.cap.value)
  {
    var live := Expirable(entries);
    var total := Total(Unexpired(entries));
    ExpirableIsOrdered(entries);
    AgePrefixIsExact(live, policy.cutoff);
    if policy.cap.Some? {
      CapPrefixIsShortest(live, total, policy.cap.value);
      var fit, n := CapPrefix(live, total, policy.cap), PlannedPrefix(entries, policy);
      LongerPrefixLeavesLess(live, fit, n);
    }
  }

  lemma LongerPrefixLeavesLess(live: seq<Entry>, a: nat, b: nat)
    requires a <= b <= |live|
    ensures Total(live[..a]) <= Total(live[..b])
  {
    assert live[..b] == live[..a] + live[a..b];
    TotalOfParts(live[..a], live[a..b]);
  }

  lemma {:induction false} UnexpiredMembers(entries: seq<Entry>)
    requires WellOrdered(entries)
    ensures WellOrdered(Unexpired(entries))
    ensures forall e :: e in Unexpired(entries) <==> e in entries && !e.expired
    decreases |entries|
  {
    hide WellOrdered;
    if entries != [] {
      OrderedTail(entries);
      UnexpiredMembers(entries[1..]);
      OrderedCons(entries[0], Unexpired(entries[1..]));
      assert [] + Unexpired(entries[1..]) == Unexpired(entries[1..]);
      assert entries == [entries[0]] + entries[1..];
    } else {
      NothingIsOrdered();
    }
  }

  /** What is stored is counted once for each entry not expired, and chosen from are exactly those not in use. */
  lemma CountsAndChoosesExactly(entries: seq<Entry>)
    requires WellOrdered(entries)
    ensures forall e :: e in Unexpired(entries) <==> e in entries && !e.expired
    ensures forall e :: e in Expirable(entries) <==> e in entries && !e.expired && e.eligible
    ensures WellOrdered(Unexpired(entries)) && WellOrdered(Expirable(entries))
  {
    UnexpiredMembers(entries);
    ExpirableIsOrdered(entries);
  }

  /** A plan expires no entry twice, none that is already expired and none still in use. */
  lemma PlanIsSound(entries: seq<Entry>, policy: Policy)
    requires WellOrdered(entries)
    ensures var chosen := Expirable(entries)[..PlannedPrefix(entries, policy)];
            && (forall i, j :: 0 <= i < j < |chosen| ==> chosen[i].key != chosen[j].key)
            && (forall e :: e in chosen ==> e in entries && !e.expired && e.eligible)
            && Total(chosen) <= Total(Unexpired(entries))
  {
    var live, n := Expirable(entries), PlannedPrefix(entries, policy);
    ExpirableIsOrdered(entries);
    ExpirableIsPart(entries);
    LongerPrefixLeavesLess(live, n, |live|);
    assert live[..|live|] == live;
  }
}
