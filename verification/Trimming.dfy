/** Trimming by whole groups, newest first, and the strategies stacked on the organizer
    (core/domain/context.py). Window trimming costs every message 1, the token budget what
    the estimator says. */
module Trimming {
  import opened Content
  import opened Context

  // ------------------------------------------------------------------ costs and picks

  function CostOf(ms: seq<Message>, cost: Message -> nat): nat {
    if ms == [] then 0 else cost(ms[0]) + CostOf(ms[1..], cost)
  }

  lemma {:induction false} CostConcat(a: seq<Message>, b: seq<Message>, cost: Message -> nat)
    ensures CostOf(a + b, cost) == CostOf(a, cost) + CostOf(b, cost)
    decreases |a|
  {
    if a == [] {
      assert a + b == b;
    } else {
      CostConcat(a[1..], b, cost);
      assert (a + b)[1..] == a[1..] + b;
    }
  }

  function Costs(groups: seq<seq<Message>>, cost: Message -> nat): (costs: seq<nat>)
    ensures |costs| == |groups|
    ensures forall i :: 0 <= i < |groups| ==> costs[i] == CostOf(groups[i], cost)
  {
    seq(|groups|, i requires 0 <= i < |groups| => CostOf(groups[i], cost))
  }

  /** The summed cost of the kept positions from `i` on. */
  function Total(costs: seq<nat>, keep: set<nat>, i: nat): nat
    requires i <= |costs|
    decreases |costs| - i
  {
    if i == |costs| then 0 else (if i in keep then costs[i] else 0) + Total(costs, keep, i + 1)
  }

  lemma {:induction false} TotalSame(costs: seq<nat>, a: set<nat>, b: set<nat>, i: nat)
    requires i <= |costs| && forall k :: i <= k < |costs| ==> (k in a <==> k in b)
    ensures Total(costs, a, i) == Total(costs, b, i)
    decreases |costs| - i
  {
    if i < |costs| { TotalSame(costs, a, b, i + 1); }
  }

  lemma {:induction false} TotalAdd(costs: seq<nat>, keep: set<nat>, j: nat, i: nat)
    requires i <= j < |costs| && j !in keep
    ensures Total(costs, keep + {j}, i) == Total(costs, keep, i) + costs[j]
    decreases |costs| - i
  {
    if i == j {
      TotalSame(costs, keep + {j}, keep, i + 1);
    } else {
      TotalAdd(costs, keep, j, i + 1);
    }
  }

  /** The messages of the kept groups from group `i` on. */
  function Pick(groups: seq<seq<Message>>, keep: set<nat>, i: nat): seq<Message>
    requires i <= |groups|
    decreases |groups| - i
  {
    if i == |groups| then [] else (if i in keep then groups[i] else []) + Pick(groups, keep, i + 1)
  }

  lemma {:induction false} PickCost(groups: seq<seq<Message>>, keep: set<nat>, i: nat, cost: Message -> nat)
    requires i <= |groups|
    ensures CostOf(Pick(groups, keep, i), cost) == Total(Costs(groups, cost), keep, i)
    decreases |groups| - i
  {
    if i < |groups| {
      PickCost(groups, keep, i + 1, cost);
      CostConcat(if i in keep then groups[i] else [], Pick(groups, keep, i + 1), cost);
    }
  }

  // ---------------------------------------------------------------- the greedy choice

  datatype Choice = Choice(keep: set<nat>, used: nat, forced: bool)

  /** The loop over the groups below `i`, newest first: a group is kept when it fits, and the
      newest is kept at any cost when nothing else is. */
  function Sweep(costs: seq<nat>, so: Choice, max: nat, i: nat): Choice
    requires i <= |costs|
    decreases i
  {
    if i == 0 then so
    else
      var j := i - 1;
      if j in so.keep then Sweep(costs, so, max, j)
      else if so.used + costs[j] <= max then
        Sweep(costs, Choice(so.keep + {j}, so.used + costs[j], so.forced), max, j)
      else if so.keep == {} && i == |costs| then
        Sweep(costs, Choice(so.keep + {j}, so.used + costs[j], true), max, j)
      else Sweep(costs, so, max, j)
  }

  function Opening(costs: seq<nat>, pinned: set<nat>, base: nat): Choice {
    Choice(pinned, base + Total(costs, pinned, 0), false)
  }

  function Choose(costs: seq<nat>, pinned: set<nat>, base: nat, max: nat): Choice {
    Sweep(costs, Opening(costs, pinned, base), max, |costs|)
  }

  predicate InRange(keep: set<nat>, n: nat) {
    forall k :: k in keep ==> k < n
  }

  /** What the sweep leaves: the account is kept, nothing dropped would still fit, and the
      limit is passed only if it was passed before or by the forced newest group. */
  lemma {:induction false} SweepMeans(costs: seq<nat>, so: Choice, max: nat, i: nat, base: nat)
    requires i <= |costs| && InRange(so.keep, |costs|)
    requires so.used == base + Total(costs, so.keep, 0)
    requires so.forced ==> so.used > max
    ensures var end := Sweep(costs, so, max, i);
            && InRange(end.keep, |costs|) && so.keep <= end.keep
            && end.used == base + Total(costs, end.keep, 0) && so.used <= end.used
            && (forall j :: 0 <= j < i && j !in end.keep ==> end.used + costs[j] > max)
            && (forall j :: i <= j < |costs| ==> (j in end.keep <==> j in so.keep))
            && (end.used > max <==> so.used > max || end.forced)
            && (so.forced ==> end.forced)
            && (end.forced ==> so.forced || (i == |costs| && so.keep == {}))
            && (i == |costs| && i > 0 ==> end.keep != {})
    decreases i
  {
    if i > 0 {
      var j := i - 1;
      if j in so.keep {
        SweepMeans(costs, so, max, j, base);
      } else if so.used + costs[j] <= max {
        TotalAdd(costs, so.keep, j, 0);
        SweepMeans(costs, Choice(so.keep + {j}, so.used + costs[j], so.forced), max, j, base);
      } else if so.keep == {} && i == |costs| {
        TotalAdd(costs, so.keep, j, 0);
        SweepMeans(costs, Choice(so.keep + {j}, so.used + costs[j], true), max, j, base);
      } else {
        SweepMeans(costs, so, max, j, base);
      }
    }
  }

  /** The groups newer than `j`, with the pinned ones. */
  function Newer(keep: set<nat>, pinned: set<nat>, j: nat): set<nat> {
    pinned + set k | k in keep && k > j
  }

  /** The sweep decides about each group from the newer ones alone: it is kept exactly when
      it is pinned, or fits beside the pinned and the kept newer groups, or is the newest and
      nothing is pinned. This determines the choice. */
  lemma {:induction false} SweepIsGreedy(costs: seq<nat>, so: Choice, pinned: set<nat>, max: nat, i: nat, base: nat, j: nat)
    requires j < i <= |costs| && InRange(so.keep, |costs|) && pinned <= so.keep
    requires so.used == base + Total(costs, so.keep, 0)
    requires forall k :: k in so.keep && k < i ==> k in pinned
    ensures var end := Sweep(costs, so, max, i);
            j in end.keep <==> j in pinned
                               || base + Total(costs, Newer(end.keep, pinned, j), 0) + costs[j] <= max
                               || (so.keep == {} && i == |costs| && j == i - 1)
    decreases i
  {
    var l := i - 1;
    var next := if l in so.keep then so
                else if so.used + costs[l] <= max then Choice(so.keep + {l}, so.used + costs[l], so.forced)
                else if so.keep == {} && i == |costs| then Choice(so.keep + {l}, so.used + costs[l], true)
                else so;
    if l !in so.keep { TotalAdd(costs, so.keep, l, 0); }
    SweepLeaves(costs, next, max, l);
    if j == l {
      var end := Sweep(costs, so, max, i);
      forall k | 0 <= k < |costs| ensures k in Newer(end.keep, pinned, j) <==> k in so.keep {
        if k > l { assert k in end.keep <==> k in next.keep; }
      }
      TotalSame(costs, Newer(end.keep, pinned, j), so.keep, 0);
    } else {
      SweepIsGreedy(costs, next, pinned, max, l, base, j);
    }
  }

  lemma {:induction false} SweepLeaves(costs: seq<nat>, so: Choice, max: nat, i: nat)
    requires i <= |costs|
    ensures forall k: nat :: k >= i ==> (k in Sweep(costs, so, max, i).keep <==> k in so.keep)
    ensures so.keep <= Sweep(costs, so, max, i).keep
    decreases i
  {
    if i > 0 {
      var j := i - 1;
      if j in so.keep {
        SweepLeaves(costs, so, max, j);
      } else if so.used + costs[j] <= max {
        SweepLeaves(costs, Choice(so.keep + {j}, so.used + costs[j], so.forced), max, j);
      } else if so.keep == {} && i == |costs| {
        SweepLeaves(costs, Choice(so.keep + {j}, so.used + costs[j], true), max, j);
      } else {
        SweepLeaves(costs, so, max, j);
      }
    }
  }

  // ---------------------------------------------------------------------- one trim

  datatype Reason = PrefixTooLong | ProtectedTooLong | NewestTooLong | SomeDropped

  /** The groups that hold a protected message. */
  function Pinned(groups: seq<seq<Message>>, refs: set<nat>): set<nat> {
    set i | 0 <= i < |groups| && exists m :: m in groups[i] && m.ref in refs
  }

  function Rest(ms: seq<Message>): seq<seq<Message>> {
    Groups(ms[PrefixSize(ms)..])
  }

  function Prefix(ms: seq<Message>): seq<Message> {
    ms[..PrefixSize(ms)]
  }

  function ChoiceOf(ms: seq<Message>, refs: set<nat>, cost: Message -> nat, max: nat): Choice {
    Choose(Costs(Rest(ms), cost), Pinned(Rest(ms), refs), CostOf(Prefix(ms), cost), max)
  }

  function Trim(ms: seq<Message>, refs: set<nat>, cost: Message -> nat, max: nat): seq<Message> {
    Prefix(ms) + Pick(Rest(ms), ChoiceOf(ms, refs, cost, max).keep, 0)
  }

  function Reasons(ms: seq<Message>, refs: set<nat>, cost: Message -> nat, max: nat): seq<Reason> {
    var pinned := Pinned(Rest(ms), refs);
    (if CostOf(Prefix(ms), cost) > max then [PrefixTooLong] else [])
    + (if Opening(Costs(Rest(ms), cost), pinned, CostOf(Prefix(ms), cost)).used > max && pinned != {}
       then [ProtectedTooLong] else [])
    + (if ChoiceOf(ms, refs, cost, max).forced then [NewestTooLong] else [])
    + (if |ms| != |Trim(ms, refs, cost, max)| then [SomeDropped] else [])
  }

  lemma PinnedInRange(groups: seq<seq<Message>>, refs: set<nat>)
    ensures InRange(Pinned(groups, refs), |groups|)
  {
  }

  /** The trimmed list is within the limit unless a named reason says which protected part
      exceeded it; no dropped group could be added back; and some group is kept if there is one. */
  lemma TrimIsBoundedAndMaximal(ms: seq<Message>, refs: set<nat>, cost: Message -> nat, max: nat)
    ensures var out, reasons := Trim(ms, refs, cost, max), Reasons(ms, refs, cost, max);
            var keep := ChoiceOf(ms, refs, cost, max).keep;
            && (CostOf(out, cost) > max <==>
                  PrefixTooLong in reasons || ProtectedTooLong in reasons || NewestTooLong in reasons)
            && (forall j :: 0 <= j < |Rest(ms)| && j !in keep ==> CostOf(out, cost) + CostOf(Rest(ms)[j], cost) > max)
            && (Rest(ms) != [] ==> exists j :: 0 <= j < |Rest(ms)| && j in keep)
  {
    var groups, pinned, base := Rest(ms), Pinned(Rest(ms), refs), CostOf(Prefix(ms), cost);
    var costs := Costs(groups, cost);
    PinnedInRange(groups, refs);
    SweepMeans(costs, Opening(costs, pinned, base), max, |groups|, base);
    var choice := ChoiceOf(ms, refs, cost, max);
    PickCost(groups, choice.keep, 0, cost);
    CostConcat(Prefix(ms), Pick(groups, choice.keep, 0), cost);
    assert CostOf(Trim(ms, refs, cost, max), cost) == choice.used;
    if pinned == {} { NothingPinned(costs); }
    ReasonsHold(ms, refs, cost, max);
    if groups != [] {
      var j :| j in choice.keep;
    }
  }

  lemma {:induction false} TotalNone(costs: seq<nat>, i: nat)
    requires i <= |costs|
    ensures Total(costs, {}, i) == 0
    decreases |costs| - i
  {
    if i < |costs| { TotalNone(costs, i + 1); }
  }

  lemma NothingPinned(costs: seq<nat>)
    ensures forall base :: Opening(costs, {}, base).used == base
  {
    TotalNone(costs, 0);
  }

  lemma ReasonsHold(ms: seq<Message>, refs: set<nat>, cost: Message -> nat, max: nat)
    ensures var pinned, base := Pinned(Rest(ms), refs), CostOf(Prefix(ms), cost);
            var reasons := Reasons(ms, refs, cost, max);
            && (PrefixTooLong in reasons <==> base > max)
            && (ProtectedTooLong in reasons <==> Opening(Costs(Rest(ms), cost), pinned, base).used > max && pinned != {})
            && (NewestTooLong in reasons <==> ChoiceOf(ms, refs, cost, max).forced)
            && (SomeDropped in reasons <==> |ms| != |Trim(ms, refs, cost, max)|)
  {
  }

  lemma {:induction false} SweepForces(costs: seq<nat>, so: Choice, max: nat, i: nat)
    requires i <= |costs|
    ensures so.forced || (so.keep == {} && i == |costs| && i > 0 && so.used + costs[i - 1] > max) ==> Sweep(costs, so, max, i).forced
    ensures !so.forced && !(so.keep == {} && i == |costs| && i > 0 && so.used + costs[i - 1] > max) ==> !Sweep(costs, so, max, i).forced
    decreases i
  {
    if i > 0 {
      var j := i - 1;
      if j in so.keep {
        SweepForces(costs, so, max, j);
      } else if so.used + costs[j] <= max {
        SweepForces(costs, Choice(so.keep + {j}, so.used + costs[j], so.forced), max, j);
      } else if so.keep == {} && i == |costs| {
        SweepForces(costs, Choice(so.keep + {j}, so.used + costs[j], true), max, j);
      } else {
        SweepForces(costs, so, max, j);
      }
    }
  }

  /** What the reasons mean: the system messages alone are too long, or with them the groups that
      hold protected messages, or, when nothing is protected, the newest group; and something is
      missing from the result. */
  lemma ReasonsMean(ms: seq<Message>, refs: set<nat>, cost: Message -> nat, max: nat)
    ensures var groups, reasons := Rest(ms), Reasons(ms, refs, cost, max);
            var pinned, base := Pinned(groups, refs), CostOf(Prefix(ms), cost);
            && (PrefixTooLong in reasons <==> base > max)
            && (ProtectedTooLong in reasons <==> pinned != {} && base + CostOf(Pick(groups, pinned, 0), cost) > max)
            && (NewestTooLong in reasons <==> pinned == {} && groups != [] && base + CostOf(groups[|groups| - 1], cost) > max)
            && (SomeDropped in reasons <==> |Trim(ms, refs, cost, max)| != |ms|)
  {
    hide Groups, CostOf, Sweep;
    var groups, pinned, base := Rest(ms), Pinned(Rest(ms), refs), CostOf(Prefix(ms), cost);
    var costs := Costs(groups, cost);
    ReasonsHold(ms, refs, cost, max);
    PickCost(groups, pinned, 0, cost);
    SweepForces(costs, Opening(costs, pinned, base), max, |groups|);
    if pinned == {} { NothingPinned(costs); }
  }

  /** The choice is greedy from the newest group down. */
  lemma TrimIsGreedy(ms: seq<Message>, refs: set<nat>, cost: Message -> nat, max: nat, j: nat)
    requires j < |Rest(ms)|
    ensures var groups, keep := Rest(ms), ChoiceOf(ms, refs, cost, max).keep;
            var pinned := Pinned(groups, refs);
            j in keep <==> j in pinned
                           || CostOf(Prefix(ms), cost) + Total(Costs(groups, cost), Newer(keep, pinned, j), 0)
                              + CostOf(groups[j], cost) <= max
                           || (pinned == {} && j == |groups| - 1)
  {
    var groups, pinned, base := Rest(ms), Pinned(Rest(ms), refs), CostOf(Prefix(ms), cost);
    var costs := Costs(groups, cost);
    PinnedInRange(groups, refs);
    SweepIsGreedy(costs, Opening(costs, pinned, base), pinned, max, |groups|, base, j);
  }

  // --------------------------------------------------------------------- the loops

  /** The second loop of _within_budget: elastic groups, newest first. */
  method FillBudget(groups: seq<seq<Message>>, pinned: set<nat>, base: nat, cost: Message -> nat, max: nat)
    returns (keep: set<nat>, used: nat, forced: bool)
    ensures Choice(keep, used, forced) == Sweep(Costs(groups, cost), Choice(pinned, base, false), max, |groups|)
  {
    keep, used, forced := pinned, base, false;
    ghost var costs := Costs(groups, cost);
    var index: nat := |groups|;
    while index > 0
      invariant 0 <= index <= |groups|
      invariant Sweep(costs, Choice(keep, used, forced), max, index)
                == Sweep(costs, Choice(pinned, base, false), max, |groups|)
    {
      index := index - 1;
      if index !in keep {
        var c := SumCost(groups[index], cost);
        if used + c > max {
          if keep == {} && index == |groups| - 1 {
            keep := keep + {index};
            used := used + c;
            forced := true;
          }
        } else {
          keep := keep + {index};
          used := used + c;
        }
      }
    }
  }

  method WithinBudget(messages: seq<Message>, protected: set<nat>, cost: Message -> nat, max: nat)
    returns (selected: seq<Message>, reasons: seq<Reason>, dropped: nat)
    ensures var refs := protected + RefsOf(Prefix(messages));
            && selected == Trim(messages, refs, cost, max)
            && reasons == Reasons(messages, refs, cost, max)
            && dropped == |messages| - |selected|
  {
    hide Groups, Pinned, Total, Pick, CostOf, Sweep, PrefixSize, Costs;
    var prefix, remainder := SystemPrefix(messages);
    var used: nat := SumCost(prefix, cost);
    reasons := [];
    if used > max { reasons := reasons + [PrefixTooLong]; }
    var groups := MessageGroups(remainder);
    var refs := protected + RefsOf(prefix);
    ghost var base, costs, pinned := used, Costs(groups, cost), Pinned(groups, refs);
    var keep, pinnedCost := KeepProtected(groups, refs, cost);
    used := used + pinnedCost;
    if used > max && keep != {} { reasons := reasons + [ProtectedTooLong]; }
    var forced;
    keep, used, forced := FillBudget(groups, keep, used, cost, max);
    if forced { reasons := reasons + [NewestTooLong]; }
    var tail := Selected(groups, keep);
    selected := prefix + tail;
    PickShortens(messages, keep);
    dropped := |messages| - |selected|;
    if dropped > 0 { reasons := reasons + [SomeDropped]; }
  }

  /** The first loop of both trims: every group with a protected message, and what they cost. */
  method KeepProtected(groups: seq<seq<Message>>, refs: set<nat>, cost: Message -> nat) returns (keep: set<nat>, used: nat)
    ensures keep == Pinned(groups, refs) && used == Total(Costs(groups, cost), keep, 0)
  {
    ghost var costs, pinned := Costs(groups, cost), Pinned(groups, refs);
    keep, used := {}, 0;
    var index: nat := 0;
    while index < |groups|
      invariant 0 <= index <= |groups|
      invariant keep == set i | i in pinned && i < index
      invariant used + Total(costs, pinned, index) == Total(costs, pinned, 0)
    {
      if exists m: Message :: m in groups[index] && m.ref in refs {
        keep := keep + {index};
        var c := SumCost(groups[index], cost);
        used := used + c;
      }
      index := index + 1;
    }
    assert keep == pinned;
  }

  method SumCost(ms: seq<Message>, cost: Message -> nat) returns (total: nat)
    ensures total == CostOf(ms, cost)
  {
    total := 0;
    var i := 0;
    assert ms[0..] == ms;
    while i < |ms|
      invariant 0 <= i <= |ms|
      invariant total + CostOf(ms[i..], cost) == CostOf(ms, cost)
    {
      assert ms[i..][1..] == ms[i + 1..];
      total := total + cost(ms[i]);
      i := i + 1;
    }
  }

  /** The comprehension over the groups whose index was selected. */
  method Selected(groups: seq<seq<Message>>, keep: set<nat>) returns (out: seq<Message>)
    ensures out == Pick(groups, keep, 0)
  {
    out := [];
    var i := 0;
    while i < |groups|
      invariant 0 <= i <= |groups|
      invariant out + Pick(groups, keep, i) == Pick(groups, keep, 0)
    {
      if i in keep {
        assert (out + groups[i]) + Pick(groups, keep, i + 1) == out + (groups[i] + Pick(groups, keep, i + 1));
        out := out + groups[i];
      } else {
        assert [] + Pick(groups, keep, i + 1) == Pick(groups, keep, i + 1);
      }
      i := i + 1;
    }
  }

  function RefsOf(ms: seq<Message>): set<nat> {
    set m | m in ms :: m.ref
  }

  lemma {:induction false} PickLength(groups: seq<seq<Message>>, keep: set<nat>, i: nat)
    requires i <= |groups|
    ensures |Pick(groups, keep, i)| <= |Flatten(groups[i..])|
    decreases |groups| - i
  {
    if i < |groups| {
      PickLength(groups, keep, i + 1);
      assert groups[i..][1..] == groups[i + 1..];
    }
  }

  lemma PickShortens(ms: seq<Message>, keep: set<nat>)
    ensures |Prefix(ms)| + |Pick(Rest(ms), keep, 0)| <= |ms|
  {
    PickLength(Rest(ms), keep, 0);
    GroupsFlatten(ms[PrefixSize(ms)..]);
    assert Rest(ms)[0..] == Rest(ms);
  }

  function One(m: Message): nat { 1 }

  lemma {:induction false} CostByCount(ms: seq<Message>)
    ensures CostOf(ms, One) == |ms|
  {
    if ms != [] { CostByCount(ms[1..]); }
  }

  /** The second loop of _preserve_system_prefix. */
  method FillWindow(groups: seq<seq<Message>>, pinned: set<nat>, count: nat, max: nat)
    returns (keep: set<nat>, forced: bool)
    ensures var end := Sweep(Costs(groups, One), Choice(pinned, count, false), max, |groups|);
            keep == end.keep && forced == end.forced
  {
    keep, forced := pinned, false;
    var remaining: int := max - count;
    var chosen: nat := 0;
    ghost var costs := Costs(groups, One);
    var index: nat := |groups|;
    while index > 0
      invariant 0 <= index <= |groups|
      invariant index == |groups| ==> chosen == 0
      invariant Sweep(costs, Choice(keep, count + chosen, forced), max, index)
                == Sweep(costs, Choice(pinned, count, false), max, |groups|)
    {
      index := index - 1;
      CostByCount(groups[index]);
      if index !in keep {
        if remaining >= 0 && chosen + |groups[index]| <= remaining {
          keep := keep + {index};
          chosen := chosen + |groups[index]|;
        } else if keep == {} && chosen == 0 && index == |groups| - 1 {
          keep := keep + {index};
          chosen := chosen + |groups[index]|;
          forced := true;
        }
      }
    }
  }

  /** _preserve_system_prefix: the same choice with every message costing 1. */
  method PreserveSystemPrefix(messages: seq<Message>, max: nat, refs: set<nat>)
    returns (selected: seq<Message>, reasons: seq<Reason>, dropped: nat)
    ensures selected == Trim(messages, refs, One, max)
    ensures reasons == Reasons(messages, refs, One, max)
    ensures dropped == |messages| - |selected|
  {
    hide Groups, Pinned, Total, Pick, CostOf, Sweep, PrefixSize, Costs;
    var prefix, remainder := SystemPrefix(messages);
    var groups := MessageGroups(remainder);
    var keep: set<nat>;
    reasons := [];
    var count: nat := |prefix|;
    CostByCount(prefix);
    if |prefix| > max { reasons := reasons + [PrefixTooLong]; }
    ghost var base, costs, pinned := |prefix|, Costs(groups, One), Pinned(groups, refs);
    var protectedCount: nat;
    keep, protectedCount := KeepProtected(groups, refs, One);
    count := count + protectedCount;
    if count > max && keep != {} { reasons := reasons + [ProtectedTooLong]; }
    var forced;
    keep, forced := FillWindow(groups, keep, count, max);
    if forced { reasons := reasons + [NewestTooLong]; }
    var tail := Selected(groups, keep);
    selected := prefix + tail;
    PickShortens(messages, keep);
    dropped := |messages| - |selected|;
    if dropped > 0 { reasons := reasons + [SomeDropped]; }
  }
}
