/** The context strategies stacked on one another (core/domain/context.py,
    bootstrap/runtime.py:365): whatever the stack, the model is shown a transcript that
    follows the tool protocol. */
module Strategies {
  import opened Wrappers
  import opened Content
  import opened Context
  import opened Trimming

  // ------------------------------------------------------------------- summarising

  /** The group from which _tail_groups_by_message_count keeps, `i` groups being still unseen. */
  function TailFrom(groups: seq<seq<Message>>, max: nat, i: nat, count: nat): (k: nat)
    requires i <= |groups|
    ensures k <= i
    decreases i
  {
    if i == 0 then 0
    else if i < |groups| && count + |groups[i - 1]| > max then i
    else if count + |groups[i - 1]| >= max then i - 1
    else TailFrom(groups, max, i - 1, count + |groups[i - 1]|)
  }

  function TailStart(groups: seq<seq<Message>>, max: nat): nat {
    TailFrom(groups, max, |groups|, 0)
  }

  method TailGroupsByMessageCount(groups: seq<seq<Message>>, max: nat) returns (recent: seq<seq<Message>>)
    ensures recent == groups[TailStart(groups, max)..]
  {
    var i: nat := |groups|;
    var count: nat := 0;
    recent := [];
    while i > 0
      invariant 0 <= i <= |groups|
      invariant recent == groups[i..]
      invariant TailFrom(groups, max, i, count) == TailStart(groups, max)
    {
      var group := groups[i - 1];
      if recent != [] && count + |group| > max { break; }
      recent := [group] + recent;
      count := count + |group|;
      i := i - 1;
      if count >= max { return; }
    }
  }

  function Size(groups: seq<seq<Message>>): nat {
    if groups == [] then 0 else |groups[0]| + Size(groups[1..])
  }

  /** The kept tail is the longest one within the limit, and at least one group. */
  lemma {:induction false} TailIsLongest(groups: seq<seq<Message>>, max: nat, i: nat, count: nat)
    requires i <= |groups| && forall g :: g in groups ==> g != []
    requires count == Size(groups[i..]) && (i < |groups| ==> count < max)
    ensures var k := TailFrom(groups, max, i, count);
            && (groups != [] ==> k < |groups|)
            && (k + 1 < |groups| ==> Size(groups[k..]) <= max)
            && (k > 0 ==> Size(groups[k - 1..]) > max)
    decreases i
  {
    hide *;
    TailStep(groups, max, i, count);
    if i > 0 {
      var g := groups[i - 1];
      SizeStep(groups, i - 1);
      if i < |groups| && count + |g| > max {
      } else if count + |g| >= max {
        if i > 1 { SizeStep(groups, i - 2); }
      } else {
        TailIsLongest(groups, max, i - 1, count + |g|);
      }
    }
  }

  lemma TailStep(groups: seq<seq<Message>>, max: nat, i: nat, count: nat)
    requires i <= |groups|
    ensures TailFrom(groups, max, i, count)
            == if i == 0 then 0
               else if i < |groups| && count + |groups[i - 1]| > max then i
               else if count + |groups[i - 1]| >= max then i - 1
               else TailFrom(groups, max, i - 1, count + |groups[i - 1]|)
  {
  }

  lemma SizeStep(groups: seq<seq<Message>>, i: nat)
    requires i < |groups| && forall g :: g in groups ==> g != []
    ensures Size(groups[i..]) == |groups[i]| + Size(groups[i + 1..])
    ensures |groups[i]| > 0
  {
    assert groups[i] in groups;
    assert groups[i..][1..] == groups[i + 1..];
  }

  function Summarized(ms: seq<Message>, after: nat, keep: nat, summarize: seq<Message> -> Message): seq<Message> {
    if |ms| <= after || |ms| - PrefixSize(ms) <= keep then ms
    else
      var k := TailStart(Rest(ms), keep);
      if k == 0 then ms
      else Prefix(ms) + [summarize(Flatten(Rest(ms)[..k]))] + Flatten(Rest(ms)[k..])
  }

  // ----------------------------------------------------------------------- the stack

  datatype Strategy =
    | Basic
    | Window(inner: Strategy, maxMessages: nat)
    | Budget(inner: Strategy, maxTokens: nat)
    | Summarizing(inner: Strategy, summarizeAfter: nat, keepRecent: nat)

  predicate OnlyTrims(s: Strategy) {
    match s
    case Basic => true
    case Window(inner, _) => OnlyTrims(inner)
    case Budget(inner, _) => OnlyTrims(inner)
    case Summarizing(_, _, _) => false
  }

  function ActiveOf(ms: seq<Message>): seq<Message> {
    if ms == [] then [] else (if IsActive(ms[0]) then [ms[0]] else []) + ActiveOf(ms[1..])
  }

  /** _active_messages of the organizer. */
  function Organized(ms: seq<Message>): seq<Message> {
    Filtered(ActiveOf(ms))
  }

  /** ContextOrganizer.organize: history and current turn are filtered apart. */
  function Organize(history: seq<Message>, turn: seq<Message>): seq<Message> {
    Organized(history) + Organized(turn)
  }

  function InsertAfterPrefix(ms: seq<Message>, m: Message): seq<Message> {
    Prefix(ms) + [m] + ms[PrefixSize(ms)..]
  }

  /** The input of one request: the stored history, the current turn and the memory message. */
  datatype Input = Input(history: seq<Message>, turn: seq<Message>, memory: Option<Message>)

  function ProtectedRefs(turn: seq<Message>): set<nat> {
    RefsOf(ActiveOf(turn))
  }

  function Base(input: Input): seq<Message> {
    var organized := Organize(input.history, input.turn);
    match input.memory
    case None => organized
    case Some(m) => InsertAfterPrefix(organized, m)
  }

  function Compose(s: Strategy, input: Input, cost: Message -> nat, summarize: seq<Message> -> Message): seq<Message> {
    match s
    case Basic => Base(input)
    case Window(inner, max) =>
      Trim(Compose(inner, input, cost, summarize), ProtectedRefs(input.turn), One, max)
    case Budget(inner, max) =>
      var ms := Compose(inner, input, cost, summarize);
      Trim(ms, ProtectedRefs(input.turn) + RefsOf(Prefix(ms)), cost, max)
    case Summarizing(inner, after, keep) =>
      Summarized(Compose(inner, input, cost, summarize), after, keep, summarize)
  }

  // ------------------------------------------------------------------- what is kept

  /** The messages with a protected identity, in order. */
  function Only(ms: seq<Message>, refs: set<nat>): seq<Message> {
    if ms == [] then [] else (if ms[0].ref in refs then [ms[0]] else []) + Only(ms[1..], refs)
  }

  lemma {:induction false} OnlyConcat(a: seq<Message>, b: seq<Message>, refs: set<nat>)
    ensures Only(a + b, refs) == Only(a, refs) + Only(b, refs)
    decreases |a|
  {
    hide *;
    if a == [] {
      OnlyOfNothing(refs);
      assert a + b == b;
    } else {
      OnlyConcat(a[1..], b, refs);
      assert a == [a[0]] + a[1..] && a + b == [a[0]] + (a[1..] + b);
      OnlyCons(a[0], a[1..], refs);
      OnlyCons(a[0], a[1..] + b, refs);
    }
  }

  lemma OnlyOfNothing(refs: set<nat>)
    ensures Only([], refs) == []
  {
  }

  lemma OnlyCons(m: Message, rest: seq<Message>, refs: set<nat>)
    ensures Only([m] + rest, refs) == (if m.ref in refs then [m] else []) + Only(rest, refs)
  {
    assert ([m] + rest)[1..] == rest;
  }

  lemma {:induction false} OnlyNone(ms: seq<Message>, refs: set<nat>)
    requires forall m :: m in ms ==> m.ref !in refs
    ensures Only(ms, refs) == []
  {
    if ms != [] { OnlyNone(ms[1..], refs); }
  }

  /** A trim of `ms` that keeps the prefix, every protected message and the order. */
  ghost predicate Keeps(ms: seq<Message>, out: seq<Message>, refs: set<nat>) {
    && IsSubseq(out, ms)
    && Prefix(ms) <= out
    && Only(out, refs) == Only(ms, refs)
  }

  lemma {:induction false} PrefixGrows(a: seq<Message>, b: seq<Message>)
    requires a <= b && forall m :: m in a ==> m.role == System
    ensures a <= Prefix(b)
    decreases |a|
  {
    if a != [] {
      assert b[0] == a[0] && a[0] in a;
      PrefixGrows(a[1..], b[1..]);
    }
  }

  lemma KeepsTransitive(a: seq<Message>, b: seq<Message>, c: seq<Message>, refs: set<nat>)
    requires Keeps(a, b, refs) && Keeps(b, c, refs)
    ensures Keeps(a, c, refs)
  {
    SubseqTransitive(c, b, a);
    PrefixGrows(Prefix(a), b);
  }

  lemma {:induction false} PickKeeps(groups: seq<seq<Message>>, keep: set<nat>, refs: set<nat>, i: nat)
    requires i <= |groups|
    requires forall j, m :: i <= j < |groups| && j !in keep && m in groups[j] ==> m.ref !in refs
    ensures IsSubseq(Pick(groups, keep, i), Flatten(groups[i..]))
    ensures Only(Pick(groups, keep, i), refs) == Only(Flatten(groups[i..]), refs)
    decreases |groups| - i
  {
    if i < |groups| {
      PickKeeps(groups, keep, refs, i + 1);
      assert groups[i..][1..] == groups[i + 1..];
      var head := if i in keep then groups[i] else [];
      SubseqSelf(groups[i]);
      SubseqConcat(head, groups[i], Pick(groups, keep, i + 1), Flatten(groups[i + 1..]));
      if i !in keep { OnlyNone(groups[i], refs); }
      OnlyConcat(head, Pick(groups, keep, i + 1), refs);
      OnlyConcat(groups[i], Flatten(groups[i + 1..]), refs);
    }
  }

  lemma {:induction false} PickWellFormed(groups: seq<seq<Message>>, keep: set<nat>, i: nat)
    requires i <= |groups| && forall g :: g in groups ==> IsBlock(g)
    ensures WellFormed(Pick(groups, keep, i))
    decreases |groups| - i
  {
    hide WellFormed, IsBlock;
    if i < |groups| {
      PickWellFormed(groups, keep, i + 1);
      if i in keep {
        WellFormedPush(groups[i], Pick(groups, keep, i + 1));
      } else {
        assert [] + Pick(groups, keep, i + 1) == Pick(groups, keep, i + 1);
      }
    } else {
      NothingIsWellFormed();
    }
  }

  lemma NothingIsWellFormed()
    ensures WellFormed([])
  {
  }

  lemma {:induction false} PrefixIsWellFormed(prefix: seq<Message>, ms: seq<Message>)
    requires forall m :: m in prefix ==> m.role == System
    ensures WellFormed(prefix + ms) <==> WellFormed(ms)
    decreases |prefix|
  {
    hide WellFormed;
    if prefix == [] {
      assert prefix + ms == ms;
    } else {
      assert prefix[0] in prefix;
      PrefixIsWellFormed(prefix[1..], ms);
      WellFormedPush([prefix[0]], prefix[1..] + ms);
      assert prefix + ms == [prefix[0]] + (prefix[1..] + ms);
    }
  }

  lemma RestIsBlocks(ms: seq<Message>)
    requires WellFormed(ms)
    ensures forall g :: g in Rest(ms) ==> IsBlock(g)
    ensures Flatten(Rest(ms)) == ms[PrefixSize(ms)..] && ms == Prefix(ms) + Flatten(Rest(ms))
  {
    hide WellFormed, IsBlock;
    var rest := ms[PrefixSize(ms)..];
    assert ms == Prefix(ms) + rest;
    PrefixIsWellFormed(Prefix(ms), rest);
    GroupsAreBlocks(rest);
    GroupsFlatten(rest);
  }

  /** One trim keeps order, prefix and protected messages, and whole tool calls. */
  lemma TrimKeeps(ms: seq<Message>, refs: set<nat>, cost: Message -> nat, max: nat, protected: set<nat>)
    requires WellFormed(ms) && protected <= refs
    ensures Keeps(ms, Trim(ms, refs, cost, max), protected) && WellFormed(Trim(ms, refs, cost, max))
  {
    hide WellFormed, IsBlock, Groups;
    var groups, keep := Rest(ms), ChoiceOf(ms, refs, cost, max).keep;
    RestIsBlocks(ms);
    PinnedStay(ms, refs, cost, max);
    assert groups[0..] == groups;
    PickKeeps(groups, keep, protected, 0);
    PickWellFormed(groups, keep, 0);
    PrefixIsWellFormed(Prefix(ms), Pick(groups, keep, 0));
    SubseqSelf(Prefix(ms));
    SubseqConcat(Prefix(ms), Prefix(ms), Pick(groups, keep, 0), Flatten(groups));
    OnlyConcat(Prefix(ms), Pick(groups, keep, 0), protected);
    OnlyConcat(Prefix(ms), Flatten(groups), protected);
  }

  lemma PinnedStay(ms: seq<Message>, refs: set<nat>, cost: Message -> nat, max: nat)
    ensures var groups, keep := Rest(ms), ChoiceOf(ms, refs, cost, max).keep;
            forall j, m :: 0 <= j < |groups| && j !in keep && m in groups[j] ==> m.ref !in refs
  {
    var groups := Rest(ms);
    var costs, pinned := Costs(groups, cost), Pinned(groups, refs);
    SweepLeaves(costs, Opening(costs, pinned, CostOf(Prefix(ms), cost)), max, |groups|);
  }

  lemma {:induction false} FlattenWellFormed(groups: seq<seq<Message>>)
    requires forall g :: g in groups ==> IsBlock(g)
    ensures WellFormed(Flatten(groups))
  {
    hide WellFormed, IsBlock;
    if groups != [] {
      FlattenWellFormed(groups[1..]);
      WellFormedPush(groups[0], Flatten(groups[1..]));
    } else {
      NothingIsWellFormed();
    }
  }

  predicate IsPlain(m: Message) {
    m.role != ToolRole && !IsCalling(m)
  }

  lemma SummaryKeeps(ms: seq<Message>, after: nat, keep: nat, summarize: seq<Message> -> Message)
    requires WellFormed(ms) && forall removed :: IsPlain(summarize(removed))
    ensures var out := Summarized(ms, after, keep, summarize);
            WellFormed(out) && Prefix(ms) <= out
  {
    hide WellFormed, Groups;
    var k := TailStart(Rest(ms), keep);
    RestIsBlocks(ms);
    FlattenWellFormed(Rest(ms)[k..]);
    var summary := summarize(Flatten(Rest(ms)[..k]));
    WellFormedPush([summary], Flatten(Rest(ms)[k..]));
    PrefixIsWellFormed(Prefix(ms), [summary] + Flatten(Rest(ms)[k..]));
    assert Prefix(ms) + [summary] + Flatten(Rest(ms)[k..]) == Prefix(ms) + ([summary] + Flatten(Rest(ms)[k..]));
  }

  lemma BaseIsWellFormed(input: Input)
    requires input.memory.Some? ==> input.memory.value.role == System
    ensures WellFormed(Base(input))
  {
    hide WellFormed, Filtered;
    var organized := Organize(input.history, input.turn);
    FilterIsWellFormed(ActiveOf(input.history));
    FilterIsWellFormed(ActiveOf(input.turn));
    WellFormedConcat(Organized(input.history), Organized(input.turn));
    if input.memory.Some? {
      var rest := organized[PrefixSize(organized)..];
      assert organized == Prefix(organized) + rest;
      PrefixIsWellFormed(Prefix(organized), rest);
      PrefixIsWellFormed(Prefix(organized) + [input.memory.value], rest);
    }
  }

  lemma {:induction false} ActiveIsSubseq(ms: seq<Message>)
    ensures IsSubseq(ActiveOf(ms), ms) && forall m :: m in ActiveOf(ms) ==> IsActive(m) && m in ms
  {
    if ms != [] {
      ActiveIsSubseq(ms[1..]);
      SubseqConcat(if IsActive(ms[0]) then [ms[0]] else [], [ms[0]], ActiveOf(ms[1..]), ms[1..]);
      assert ms == [ms[0]] + ms[1..];
    }
  }

  lemma {:induction false} SubseqMembers(a: seq<Message>, b: seq<Message>)
    requires IsSubseq(a, b)
    ensures forall m :: m in a ==> m in b
    decreases |b|
  {
    if a != [] {
      if a[0] == b[0] && IsSubseq(a[1..], b[1..]) { SubseqMembers(a[1..], b[1..]); } else { SubseqMembers(a, b[1..]); }
      assert a == [a[0]] + a[1..] && b == [b[0]] + b[1..];
    }
  }

  /** What is organized: messages of the history and then of the current turn, in their order, none
      of them rejected or failed. */
  lemma OrganizeKeepsOrder(history: seq<Message>, turn: seq<Message>)
    ensures IsSubseq(Organize(history, turn), history + turn)
    ensures forall m :: m in Organize(history, turn) ==> IsActive(m)
    ensures forall m :: m in Organized(turn) ==> m in turn && m.ref in ProtectedRefs(turn)
  {
    hide IsSubseq, Filtered, ActiveOf, IsActive;
    OrganizedIs(history);
    OrganizedIs(turn);
    SubseqConcat(Organized(history), history, Organized(turn), turn);
    FilterIsSubseq(ActiveOf(turn));
    SubseqMembers(Organized(turn), ActiveOf(turn));
  }

  lemma OrganizedIs(ms: seq<Message>)
    ensures IsSubseq(Organized(ms), ms) && forall m :: m in Organized(ms) ==> IsActive(m) && m in ms
  {
    hide IsSubseq, Filtered, ActiveOf, IsActive;
    ActiveIsSubseq(ms);
    FilterIsSubseq(ActiveOf(ms));
    SubseqMembers(Organized(ms), ActiveOf(ms));
    SubseqTransitive(Organized(ms), ActiveOf(ms), ms);
  }

  /** The memory message is put behind the system messages, and every stack shows it there. */
  lemma MemoryIsShown(s: Strategy, input: Input, cost: Message -> nat, summarize: seq<Message> -> Message)
    requires input.memory.Some? && input.memory.value.role == System
    requires forall removed :: IsPlain(summarize(removed))
    ensures var organized := Organize(input.history, input.turn);
            && Base(input) == organized[..PrefixSize(organized)] + [input.memory.value] + organized[PrefixSize(organized)..]
            && organized[..PrefixSize(organized)] + [input.memory.value] <= Compose(s, input, cost, summarize)
  {
    hide WellFormed, Filtered;
    var organized, m := Organize(input.history, input.turn), input.memory.value;
    AnyStackIsWellFormed(s, input, cost, summarize);
    assert organized[..PrefixSize(organized)] == Prefix(organized);
    PrefixGrows(Prefix(organized) + [m], Base(input));
  }

  /** Summarising loses nothing but detail: what it leaves is the system messages, one message made
      of exactly the messages it takes away, and the longest tail of whole groups that fits, at
      least one; and it does so exactly when there is more than it may leave alone. */
  lemma SummaryAccounts(ms: seq<Message>, after: nat, keep: nat, summarize: seq<Message> -> Message)
    requires WellFormed(ms)
    ensures var out, groups := Summarized(ms, after, keep, summarize), Rest(ms);
            var k := TailStart(groups, keep);
            && k <= |groups| && ms == Prefix(ms) + Flatten(groups[..k]) + Flatten(groups[k..])
            && (groups != [] ==> k < |groups|) && (k + 1 < |groups| ==> |Flatten(groups[k..])| <= keep)
            && (k > 0 ==> |Flatten(groups[k - 1..])| > keep)
            && (if |ms| > after && |ms| - PrefixSize(ms) > keep && k > 0
                then out == Prefix(ms) + [summarize(Flatten(groups[..k]))] + Flatten(groups[k..])
                else out == ms)
  {
    hide WellFormed, IsBlock, Groups, Size;
    var groups := Rest(ms);
    var k := TailStart(groups, keep);
    RestIsBlocks(ms);
    BlocksAreFilled(groups);
    NoSize(groups);
    TailIsLongest(groups, keep, |groups|, 0);
    FlattenSplits(groups, k);
    FlattenSize(groups[k..]);
    if k > 0 { FlattenSize(groups[k - 1..]); }
    assert Prefix(ms) + (Flatten(groups[..k]) + Flatten(groups[k..])) == Prefix(ms) + Flatten(groups[..k]) + Flatten(groups[k..]);
  }

  lemma {:induction false} FlattenSplits(groups: seq<seq<Message>>, k: nat)
    requires k <= |groups|
    ensures Flatten(groups) == Flatten(groups[..k]) + Flatten(groups[k..])
    decreases k
  {
    if k == 0 {
      assert groups[..0] == [] && groups[0..] == groups;
    } else {
      FlattenSplits(groups[1..], k - 1);
      assert groups[..k][1..] == groups[1..][..k - 1] && groups[k..] == groups[1..][k - 1..];
    }
  }

  lemma {:induction false} FlattenSize(groups: seq<seq<Message>>)
    ensures |Flatten(groups)| == Size(groups)
  {
    if groups != [] { FlattenSize(groups[1..]); }
  }

  /** Any stack of trimming strategies keeps meaning: its output is a subsequence of the
      organized messages, keeps the whole system prefix with the memory message, keeps every
      current-turn message that survived the organizer, holds every tool call with all its
      results or not at all, and is left alone by another pass of the filter. */
  lemma {:induction false} StackKeepsMeaning(s: Strategy, input: Input, cost: Message -> nat, summarize: seq<Message> -> Message)
    requires OnlyTrims(s)
    requires input.memory.Some? ==> input.memory.value.role == System
    ensures var out := Compose(s, input, cost, summarize);
            Keeps(Base(input), out, ProtectedRefs(input.turn)) && WellFormed(out) && Filtered(out) == out
    decreases s
  {
    hide WellFormed, Trim, Filtered, Keeps;
    var refs := ProtectedRefs(input.turn);
    var out := Compose(s, input, cost, summarize);
    match s {
      case Basic =>
        BaseIsWellFormed(input);
        KeepsItself(Base(input), refs);
      case Window(inner, max) =>
        var ms := Compose(inner, input, cost, summarize);
        StackKeepsMeaning(inner, input, cost, summarize);
        TrimKeeps(ms, refs, One, max, refs);
        KeepsTransitive(Base(input), ms, out, refs);
      case Budget(inner, max) =>
        var ms := Compose(inner, input, cost, summarize);
        StackKeepsMeaning(inner, input, cost, summarize);
        TrimKeeps(ms, refs + RefsOf(Prefix(ms)), cost, max, refs);
        KeepsTransitive(Base(input), ms, out, refs);
    }
    FilterFixesExactly(out);
  }

  lemma KeepsItself(ms: seq<Message>, refs: set<nat>)
    ensures Keeps(ms, ms, refs)
  {
    SubseqSelf(ms);
  }

  /** Summarising anywhere in the stack still keeps the tool protocol and the system prefix. */
  lemma {:induction false} AnyStackIsWellFormed(s: Strategy, input: Input, cost: Message -> nat, summarize: seq<Message> -> Message)
    requires input.memory.Some? ==> input.memory.value.role == System
    requires forall removed :: IsPlain(summarize(removed))
    ensures var out := Compose(s, input, cost, summarize);
            WellFormed(out) && Filtered(out) == out && Prefix(Base(input)) <= out
    decreases s
  {
    hide WellFormed, Trim, Filtered, Summarized;
    var out := Compose(s, input, cost, summarize);
    if s.Basic? {
      BaseIsWellFormed(input);
    } else {
      var ms := Compose(s.inner, input, cost, summarize);
      AnyStackIsWellFormed(s.inner, input, cost, summarize);
      var refs := ProtectedRefs(input.turn);
      match s {
        case Window(_, max) => TrimKeeps(ms, refs, One, max, refs);
        case Budget(_, max) => TrimKeeps(ms, refs + RefsOf(Prefix(ms)), cost, max, refs);
        case Summarizing(_, after, keep) => SummaryKeeps(ms, after, keep, summarize);
      }
      PrefixGrows(Prefix(Base(input)), ms);
    }
    FilterFixesExactly(out);
  }

  // -------------------------------------------------- the current turn and summaries

  /** The first group with a protected message, or the number of groups. */
  function TurnGroup(groups: seq<seq<Message>>, refs: set<nat>): (t: nat)
    ensures t <= |groups| && (t < |groups| ==> Only(groups[t], refs) != [])
    ensures forall i :: 0 <= i < t ==> Only(groups[i], refs) == []
  {
    if groups == [] || Only(groups[0], refs) != [] then 0 else 1 + TurnGroup(groups[1..], refs)
  }

  /** The summarising strategy has nothing to do, or the groups from the first protected message
      on fit into what it keeps, or are the one group it always keeps. */
  predicate TurnFits(ms: seq<Message>, after: nat, keep: nat, refs: set<nat>) {
    || |ms| <= after
    || |ms| - PrefixSize(ms) <= keep
    || var groups := Rest(ms);
       var t := TurnGroup(groups, refs);
       t + 1 >= |groups| || Size(groups[t..]) <= keep
  }

  lemma {:induction false} SizeShrinks(groups: seq<seq<Message>>, i: nat, j: nat)
    requires i <= j <= |groups|
    ensures Size(groups[j..]) <= Size(groups[i..])
    decreases j - i
  {
    if i < j {
      assert groups[i..][1..] == groups[i + 1..];
      SizeShrinks(groups, i + 1, j);
    }
  }

  /** The kept tail starts at or before a group exactly when the groups from there on fit, or
      when it is the last group. */
  lemma TailReaches(groups: seq<seq<Message>>, keep: nat, t: nat)
    requires t < |groups| && forall g :: g in groups ==> g != []
    ensures TailStart(groups, keep) <= t <==> t + 1 == |groups| || Size(groups[t..]) <= keep
  {
    hide Size;
    var k := TailStart(groups, keep);
    assert Size(groups[|groups|..]) == 0 by { NoSize(groups); }
    TailIsLongest(groups, keep, |groups|, 0);
    if k <= t { SizeShrinks(groups, k, t); } else { SizeShrinks(groups, t, k - 1); }
  }

  lemma NoSize(groups: seq<seq<Message>>)
    ensures Size(groups[|groups|..]) == 0
  {
  }

  lemma {:induction false} OnlyHead(groups: seq<seq<Message>>, refs: set<nat>, k: nat)
    requires k <= |groups|
    ensures Only(Flatten(groups), refs) == Only(Flatten(groups[..k]), refs) + Only(Flatten(groups[k..]), refs)
    ensures Only(Flatten(groups[..k]), refs) == [] <==> k <= TurnGroup(groups, refs)
    decreases k
  {
    hide Only;
    if k == 0 {
      assert groups[0..] == groups && groups[..0] == [];
      NothingOnly(refs);
      assert [] + Only(Flatten(groups), refs) == Only(Flatten(groups), refs);
    } else {
      var rest := groups[1..];
      OnlyHead(rest, refs, k - 1);
      assert groups[..k][1..] == rest[..k - 1] && groups[k..] == rest[k - 1..];
      OnlyConcat(groups[0], Flatten(rest), refs);
      OnlyConcat(groups[0], Flatten(rest[..k - 1]), refs);
    }
  }

  lemma NothingOnly(refs: set<nat>)
    ensures Only([], refs) == []
  {
  }

  /** What summarising leaves of the protected messages: all of them exactly when they fit, else
      the ones in the kept tail. */
  lemma SummaryKeepsTurn(ms: seq<Message>, after: nat, keep: nat, summarize: seq<Message> -> Message, refs: set<nat>)
    requires WellFormed(ms) && forall removed :: summarize(removed).ref !in refs
    ensures var out := Summarized(ms, after, keep, summarize);
            && (Only(out, refs) == Only(ms, refs) <==> TurnFits(ms, after, keep, refs))
            && (!TurnFits(ms, after, keep, refs) ==> |Only(out, refs)| < |Only(ms, refs)|)
  {
    hide WellFormed, IsBlock, Groups, Only, Size;
    if |ms| > after && |ms| - PrefixSize(ms) > keep {
      var groups := Rest(ms);
      var k, t := TailStart(groups, keep), TurnGroup(groups, refs);
      RestIsBlocks(ms);
      BlocksAreFilled(groups);
      if t < |groups| { TailReaches(groups, keep, t); }
      if groups != [] { TailReaches(groups, keep, |groups| - 1); }
      OnlyHead(groups, refs, k);
      if k > 0 { SummarizedOnly(ms, k, summarize, refs); }
    }
  }

  lemma BlocksAreFilled(groups: seq<seq<Message>>)
    requires forall g :: g in groups ==> IsBlock(g)
    ensures forall g :: g in groups ==> g != []
  {
  }

  lemma SummarizedOnly(ms: seq<Message>, k: nat, summarize: seq<Message> -> Message, refs: set<nat>)
    requires k <= |Rest(ms)| && ms == Prefix(ms) + Flatten(Rest(ms))
    requires forall removed :: summarize(removed).ref !in refs
    ensures var head, tail := Flatten(Rest(ms)[..k]), Flatten(Rest(ms)[k..]);
            && Only(Prefix(ms) + [summarize(head)] + tail, refs) == Only(Prefix(ms), refs) + Only(tail, refs)
            && Only(ms, refs) == Only(Prefix(ms), refs) + (Only(head, refs) + Only(tail, refs))
  {
    hide Groups, Only;
    var head, tail := Flatten(Rest(ms)[..k]), Flatten(Rest(ms)[k..]);
    OnlyHead(Rest(ms), refs, k);
    OnlyConcat(Prefix(ms), Flatten(Rest(ms)), refs);
    OnlyConcat(Prefix(ms) + [summarize(head)], tail, refs);
    OnlyConcat(Prefix(ms), [summarize(head)], refs);
    OnlyNone([summarize(head)], refs);
    assert Only(Prefix(ms), refs) + [] == Only(Prefix(ms), refs);
  }

  /** Every summarising layer of the stack has room for the current turn it is given. */
  predicate SummariesFit(s: Strategy, input: Input, cost: Message -> nat, summarize: seq<Message> -> Message) {
    match s
    case Basic => true
    case Window(inner, _) => SummariesFit(inner, input, cost, summarize)
    case Budget(inner, _) => SummariesFit(inner, input, cost, summarize)
    case Summarizing(inner, after, keep) =>
      && SummariesFit(inner, input, cost, summarize)
      && TurnFits(Compose(inner, input, cost, summarize), after, keep, ProtectedRefs(input.turn))
  }

  /** Any stack at all keeps every current-turn message that survived the organizer exactly when
      its summarising layers have room for the current turn. */
  lemma StackKeepsTurn(s: Strategy, input: Input, cost: Message -> nat, summarize: seq<Message> -> Message)
    requires input.memory.Some? ==> input.memory.value.role == System
    requires forall removed :: IsPlain(summarize(removed)) && summarize(removed).ref !in ProtectedRefs(input.turn)
    ensures var refs := ProtectedRefs(input.turn);
            Only(Compose(s, input, cost, summarize), refs) == Only(Base(input), refs)
            <==> SummariesFit(s, input, cost, summarize)
  {
    StackLosesTurn(s, input, cost, summarize);
  }

  lemma {:induction false} StackLosesTurn(s: Strategy, input: Input, cost: Message -> nat, summarize: seq<Message> -> Message)
    requires input.memory.Some? ==> input.memory.value.role == System
    requires forall removed :: IsPlain(summarize(removed)) && summarize(removed).ref !in ProtectedRefs(input.turn)
    ensures var refs := ProtectedRefs(input.turn);
            var kept, all := Only(Compose(s, input, cost, summarize), refs), Only(Base(input), refs);
            if SummariesFit(s, input, cost, summarize) then kept == all else |kept| < |all|
    decreases s
  {
    hide WellFormed, Trim, Summarized, Only, TurnFits, Base, ProtectedRefs;
    if !s.Basic? {
      var ms, refs := Compose(s.inner, input, cost, summarize), ProtectedRefs(input.turn);
      StackLosesTurn(s.inner, input, cost, summarize);
      AnyStackIsWellFormed(s.inner, input, cost, summarize);
      match s {
        case Window(_, max) => TrimKeeps(ms, refs, One, max, refs);
        case Budget(_, max) => TrimKeeps(ms, refs + RefsOf(Prefix(ms)), cost, max, refs);
        case Summarizing(_, after, keep) => SummaryKeepsTurn(ms, after, keep, summarize, refs);
      }
    }
  }

  lemma {:induction false} OnlyMembers(ms: seq<Message>, refs: set<nat>, m: Message)
    requires m.ref in refs
    ensures m in ms <==> m in Only(ms, refs)
  {
    if ms != [] {
      OnlyMembers(ms[1..], refs, m);
      assert ms == [ms[0]] + ms[1..];
    }
  }

  /** In the end: what the organizer leaves of the current turn is shown by every stack whose
      summarising layers have room for it, so by every stack that only trims. */
  lemma TurnIsShown(s: Strategy, input: Input, cost: Message -> nat, summarize: seq<Message> -> Message, m: Message)
    requires input.memory.Some? ==> input.memory.value.role == System
    requires forall removed :: IsPlain(summarize(removed)) && summarize(removed).ref !in ProtectedRefs(input.turn)
    requires SummariesFit(s, input, cost, summarize) && m in Organized(input.turn)
    ensures m in Compose(s, input, cost, summarize)
  {
    hide Filtered, ActiveOf, Compose, SummariesFit, Only, ProtectedRefs, PrefixSize, IsSubseq;
    var refs, organized := ProtectedRefs(input.turn), Organize(input.history, input.turn);
    OrganizeKeepsOrder(input.history, input.turn);
    StackKeepsTurn(s, input, cost, summarize);
    assert m in organized;
    assert organized == organized[..PrefixSize(organized)] + organized[PrefixSize(organized)..];
    OnlyMembers(Base(input), refs, m);
    OnlyMembers(Compose(s, input, cost, summarize), refs, m);
  }

  lemma {:induction false} TrimsFit(s: Strategy, input: Input, cost: Message -> nat, summarize: seq<Message> -> Message)
    requires OnlyTrims(s)
    ensures SummariesFit(s, input, cost, summarize)
    decreases s
  {
    hide TurnFits, Compose;
    if !s.Basic? { TrimsFit(s.inner, input, cost, summarize); }
  }

  /** And what the outermost layer limits is limited: a window shows no more messages, a budget no
      more tokens than it allows, unless the system messages, the groups of the current turn, or the
      newest group when there is no current turn, are too many already. */
  lemma LayerIsBounded(inner: Strategy, input: Input, cost: Message -> nat, summarize: seq<Message> -> Message, max: nat)
    ensures var ms, refs := Compose(inner, input, cost, summarize), ProtectedRefs(input.turn);
            && (|Compose(Window(inner, max), input, cost, summarize)| > max <==> IsTooLong(ms, refs, One, max))
            && (CostOf(Compose(Budget(inner, max), input, cost, summarize), cost) > max
                <==> IsTooLong(ms, refs + RefsOf(Prefix(ms)), cost, max))
  {
    hide Groups, CostOf, Compose, Trim, Reasons, ChoiceOf;
    var ms, refs := Compose(inner, input, cost, summarize), ProtectedRefs(input.turn);
    ComposeIs(inner, input, cost, summarize, max);
    TrimIsBoundedAndMaximal(ms, refs, One, max);
    ReasonsMean(ms, refs, One, max);
    CostByCount(Compose(Window(inner, max), input, cost, summarize));
    TrimIsBoundedAndMaximal(ms, refs + RefsOf(Prefix(ms)), cost, max);
    ReasonsMean(ms, refs + RefsOf(Prefix(ms)), cost, max);
  }

  lemma ComposeIs(inner: Strategy, input: Input, cost: Message -> nat, summarize: seq<Message> -> Message, max: nat)
    ensures var ms, refs := Compose(inner, input, cost, summarize), ProtectedRefs(input.turn);
            && Compose(Window(inner, max), input, cost, summarize) == Trim(ms, refs, One, max)
            && Compose(Budget(inner, max), input, cost, summarize) == Trim(ms, refs + RefsOf(Prefix(ms)), cost, max)
  {
    hide Trim;
  }

  predicate IsTooLong(ms: seq<Message>, refs: set<nat>, cost: Message -> nat, max: nat) {
    var groups, base := Rest(ms), CostOf(Prefix(ms), cost);
    var pinned := Pinned(groups, refs);
    || base > max
    || (pinned != {} && base + CostOf(Pick(groups, pinned, 0), cost) > max)
    || (pinned == {} && groups != [] && base + CostOf(groups[|groups| - 1], cost) > max)
  }

  /** The condition can fail: summarising, unlike trimming, may drop a message of the current turn. */
  lemma SummaryMayDropCurrentTurn(a: Message, b: Message, summary: Message)
    requires a.role == User && b.role == User && IsActive(a) && IsActive(b)
    requires a.ref != b.ref && summary.ref != a.ref
    ensures var input := Input([], [a, b], None);
            var out := Compose(Summarizing(Basic, 1, 1), input, One, _ => summary);
            out == [summary, b] && a in Base(input) && a !in out
  {
    hide Summarized, Filtered;
    var input := Input([], [a, b], None);
    PairIsPlain(a, b);
    NothingIsSafe();
    SummarizesPair(a, b, _ => summary);
    assert Base(input) == [a, b];
  }

  lemma NothingIsSafe()
    ensures Organized([]) == []
  {
  }

  lemma SummarizesPair(a: Message, b: Message, summarize: seq<Message> -> Message)
    requires a.role == User && Groups([a, b]) == [[a], [b]]
    ensures Summarized([a, b], 1, 1, summarize) == [summarize([a]), b]
  {
    hide Groups;
    assert [a, b][0..] == [a, b];
    assert Rest([a, b]) == [[a], [b]] && Rest([a, b])[1..] == [[b]] && Rest([a, b])[..1] == [[a]];
    assert TailStart([[a], [b]], 1) == 1;
    OneGroup(a);
    OneGroup(b);
    assert Prefix([a, b]) == [];
  }

  lemma OneGroup(b: Message)
    ensures Flatten([[b]]) == [b]
  {
    assert [[b]][1..] == [];
    assert [b] + [] == [b];
  }

  lemma PairIsPlain(a: Message, b: Message)
    requires IsPlain(a) && IsPlain(b) && IsActive(a) && IsActive(b)
    ensures ActiveOf([a, b]) == [a, b] && Filtered([a, b]) == [a, b] && Groups([a, b]) == [[a], [b]]
  {
    assert [a, b][1..] == [b] && [b][1..] == [] && [a, b][..1] == [a] && [b][..1] == [b];
    assert ActiveOf([b]) == [b];
    assert WellFormed([b]) && WellFormed([a, b]);
    FilterKeepsWellFormed([a, b]);
    assert Groups([b]) == [[b]];
  }
}
