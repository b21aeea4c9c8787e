/** The context strategies (core/domain/context.py): the organizer's tool-protocol filter,
    grouping, window trimming, token budgeting and summarising, stacked as decorators. */
module Context {
  import opened Wrappers
  import opened Content

  // ------------------------------------------------------------- the organizer filter

  function Expected(calls: seq<ToolCall>): set<string> {
    set i | 0 <= i < |calls| :: calls[i].id
  }

  /** A tool message that answers one of the expected ids. */
  predicate AnswersOne(m: Message, expected: set<string>) {
    m.role == ToolRole && m.callId.Some? && m.callId.value in expected
  }

  /** _following_tool_messages: how many messages after the assistant message answer its calls. */
  function Following(rest: seq<Message>, expected: set<string>, seen: set<string>): (n: nat)
    ensures n <= |rest|
  {
    if rest == [] || !AnswersOne(rest[0], expected) || rest[0].callId.value in seen then 0
    else
      var seen' := seen + {rest[0].callId.value};
      if seen' == expected then 1 else 1 + Following(rest[1..], expected, seen')
  }

  /** What the filter does with the first message: how many messages it takes up, and whether it keeps them. */
  function Head(ms: seq<Message>): (h: (nat, bool))
    requires ms != []
    ensures 0 < h.0 <= |ms|
  {
    if ms[0].role == ToolRole then (1, false)
    else if IsCalling(ms[0]) then
      var n := Following(ms[1..], Expected(ms[0].calls), {});
      (1 + n, n == |ms[0].calls|)
    else (1, true)
  }

  /** _tool_protocol_safe_messages. */
  function Filtered(ms: seq<Message>): seq<Message>
    decreases |ms|
  {
    if ms == [] then []
    else
      var (n, kept) := Head(ms);
      (if kept then ms[..n] else []) + Filtered(ms[n..])
  }

  method FollowingToolMessages(messages: seq<Message>, assistant: nat, calls: seq<ToolCall>) returns (found: seq<Message>)
    requires assistant < |messages|
    ensures var n := Following(messages[assistant + 1..], Expected(calls), {});
            found == messages[assistant + 1..assistant + 1 + n]
  {
    var expected := Expected(calls);
    var seen: set<string> := {};
    found := [];
    var i := assistant + 1;
    ghost var total := Following(messages[assistant + 1..], expected, {});
    while i < |messages|
      invariant assistant + 1 <= i <= |messages|
      invariant found == messages[assistant + 1..i]
      invariant total == i - (assistant + 1) + Following(messages[i..], expected, seen)
    {
      var m := messages[i];
      assert messages[i..][1..] == messages[i + 1..];
      if !AnswersOne(m, expected) || m.callId.value in seen { break; }
      seen := seen + {m.callId.value};
      found := found + [m];
      i := i + 1;
      if seen == expected {
        assert found == messages[assistant + 1..i];
        return;
      }
    }
  }

  lemma FilterStep(messages: seq<Message>, i: nat)
    requires i < |messages|
    ensures var (n, kept) := Head(messages[i..]);
            && i + n <= |messages|
            && Filtered(messages[i..]) == (if kept then messages[i..i + n] else []) + Filtered(messages[i + n..])
  {
    var (n, kept) := Head(messages[i..]);
    assert messages[i..][..n] == messages[i..i + n] && messages[i..][n..] == messages[i + n..];
  }

  /** What precedes, and what is kept of the part at hand, is followed by what is kept of the rest. */
  lemma FilterKeeps(messages: seq<Message>, before: seq<Message>, i: nat)
    requires i < |messages| && before + Filtered(messages[i..]) == Filtered(messages)
    ensures var m := messages[i];
            var n := if m.role != ToolRole && IsCalling(m) then Following(messages[i + 1..], Expected(m.calls), {}) else 0;
            var kept := if m.role == ToolRole || (IsCalling(m) && n != |m.calls|) then [] else messages[i..i + 1 + n];
            && i + 1 + n <= |messages|
            && before + kept + Filtered(messages[i + 1 + n..]) == Filtered(messages)
  {
    hide *;
    FilterStep(messages, i);
    HeadAt(messages, i);
  }

  lemma HeadAt(messages: seq<Message>, i: nat)
    requires i < |messages|
    ensures var m := messages[i];
            Head(messages[i..]) == if m.role == ToolRole then (1, false)
                                   else if IsCalling(m) then
                                     var n := Following(messages[i + 1..], Expected(m.calls), {}); (1 + n, n == |m.calls|)
                                   else (1, true)
  {
    assert messages[i..][1..] == messages[i + 1..];
  }

  method ToolProtocolSafeMessages(messages: seq<Message>) returns (safe: seq<Message>)
    ensures safe == Filtered(messages)
  {
    hide *;
    safe := [];
    var i := 0;
    assert messages[0..] == messages;
    while i < |messages|
      invariant 0 <= i <= |messages|
      invariant safe + Filtered(messages[i..]) == Filtered(messages)
    {
      var m := messages[i];
      FilterKeeps(messages, safe, i);
      if m.role == ToolRole {
        i := i + 1;
      } else if IsCalling(m) {
        var tools := FollowingToolMessages(messages, i, m.calls);
        assert [m] + tools == messages[i..i + 1 + |tools|];
        if |tools| == |m.calls| { safe := safe + ([m] + tools); }
        i := i + 1 + |tools|;
      } else {
        safe := safe + [m];
        i := i + 1;
      }
    }
    assert messages[i..] == [];
    FilterOfNothing();
  }

  lemma FilterOfNothing()
    ensures Filtered([]) == []
  {
  }

  // ------------------------------------------------------- well-formed transcripts

  /** The tool messages answer every call exactly once, in any order. */
  ghost predicate Answers(calls: seq<ToolCall>, tools: seq<Message>) {
    && |tools| == |calls|
    && (forall i :: 0 <= i < |tools| ==> AnswersOne(tools[i], Expected(calls)))
    && (forall i, j :: 0 <= i < j < |tools| ==> tools[i].callId != tools[j].callId)
    && (forall c :: c in calls ==> exists i :: 0 <= i < |tools| && tools[i].callId == Some(c.id))
  }

  /** An assistant call with its answers, or one plain message. */
  ghost predicate IsBlock(b: seq<Message>) {
    b != [] && b[0].role != ToolRole
    && (if IsCalling(b[0]) then |b| == 1 + |b[0].calls| && Answers(b[0].calls, b[1..]) else |b| == 1)
  }

  function BlockSize(m: Message): nat {
    if IsCalling(m) then 1 + |m.calls| else 1
  }

  /** A sequence of plain messages and of assistant calls followed by exactly their answers. */
  ghost predicate WellFormed(ms: seq<Message>)
    decreases |ms|
  {
    ms == [] ||
    var n := BlockSize(ms[0]);
    n <= |ms| && IsBlock(ms[..n]) && WellFormed(ms[n..])
  }

  function IdsOf(tools: seq<Message>): set<string> {
    set i | 0 <= i < |tools| && tools[i].callId.Some? :: tools[i].callId.value
  }

  lemma {:induction false} ExpectedSize(calls: seq<ToolCall>)
    ensures |Expected(calls)| <= |calls|
  {
    if calls != [] {
      var front, last := calls[..|calls| - 1], calls[|calls| - 1];
      ExpectedSize(front);
      assert forall i :: 0 <= i < |front| ==> front[i] == calls[i];
      assert Expected(calls) == Expected(front) + {last.id};
    }
  }

  lemma {:induction false} DistinctIdsSize(tools: seq<Message>)
    requires forall i :: 0 <= i < |tools| ==> tools[i].callId.Some?
    requires forall i, j :: 0 <= i < j < |tools| ==> tools[i].callId != tools[j].callId
    ensures |IdsOf(tools)| == |tools|
  {
    if tools != [] {
      var front, last := tools[..|tools| - 1], tools[|tools| - 1];
      DistinctIdsSize(front);
      assert forall i :: 0 <= i < |front| ==> front[i] == tools[i];
      assert IdsOf(tools) == IdsOf(front) + {last.callId.value};
      assert last.callId.value !in IdsOf(front);
    }
  }

  /** What the count stands for: a run of answers with new, distinct ids. */
  lemma {:induction false} FollowingTakes(rest: seq<Message>, expected: set<string>, seen: set<string>)
    ensures var n := Following(rest, expected, seen);
            && (forall i :: 0 <= i < n ==> AnswersOne(rest[i], expected) && rest[i].callId.value !in seen)
            && (forall i, j :: 0 <= i < j < n ==> rest[i].callId != rest[j].callId)
            && (n < |rest| && AnswersOne(rest[n], expected) && rest[n].callId.value !in seen + IdsOf(rest[..n])
                ==> n > 0 && seen + IdsOf(rest[..n]) == expected)
    decreases |rest|
  {
    var n := Following(rest, expected, seen);
    if n > 0 {
      var seen' := seen + {rest[0].callId.value};
      assert IdsOf(rest[..n]) == {rest[0].callId.value} + IdsOf(rest[1..n]) by {
        assert forall i :: 0 <= i < n - 1 ==> rest[1..n][i] == rest[..n][i + 1];
        forall id | id in IdsOf(rest[..n]) ensures id in {rest[0].callId.value} + IdsOf(rest[1..n]) {
          var i :| 0 <= i < n && rest[..n][i].callId == Some(id);
          if i > 0 { assert rest[1..n][i - 1].callId == Some(id); }
        }
      }
      if seen' != expected {
        FollowingTakes(rest[1..], expected, seen');
        assert rest[1..][..n - 1] == rest[1..n];
        forall i | 0 <= i < n ensures AnswersOne(rest[i], expected) && rest[i].callId.value !in seen {
          if i > 0 { assert rest[i] == rest[1..][i - 1]; }
        }
        forall i, j | 0 <= i < j < n ensures rest[i].callId != rest[j].callId {
          assert rest[j] == rest[1..][j - 1];
          if i > 0 { assert rest[i] == rest[1..][i - 1]; }
        }
      }
    }
  }

  /** Ids once found keep the count going until nothing is missing. */
  lemma {:induction false} FollowingReaches(rest: seq<Message>, expected: set<string>, seen: set<string>, k: nat)
    requires 0 < k <= |rest|
    requires forall i :: 0 <= i < k ==> AnswersOne(rest[i], expected) && rest[i].callId.value !in seen
    requires forall i, j :: 0 <= i < j < k ==> rest[i].callId != rest[j].callId
    requires seen + IdsOf(rest[..k]) == expected
    ensures Following(rest, expected, seen) == k
    decreases |rest|
  {
    var seen' := seen + {rest[0].callId.value};
    var tail := rest[1..];
    assert forall i :: 0 <= i < |tail| ==> tail[i] == rest[i + 1];
    assert IdsOf(rest[..k]) == {rest[0].callId.value} + IdsOf(tail[..k - 1]) by {
      forall id | id in IdsOf(rest[..k]) ensures id in {rest[0].callId.value} + IdsOf(tail[..k - 1]) {
        var i :| 0 <= i < k && rest[..k][i].callId == Some(id);
        if i > 0 { assert tail[..k - 1][i - 1].callId == Some(id); }
      }
      forall id | id in IdsOf(tail[..k - 1]) ensures id in IdsOf(rest[..k]) {
        var i :| 0 <= i < k - 1 && tail[..k - 1][i].callId == Some(id);
        assert rest[..k][i + 1].callId == Some(id);
      }
    }
    if k == 1 {
      assert tail[..0] == [];
    } else {
      assert rest[1].callId.value !in seen' && rest[1].callId.value in expected;
      FollowingReaches(tail, expected, seen', k - 1);
    }
  }

  /** The count equals the number of calls exactly when the next messages answer them all. */
  lemma FollowingComplete(rest: seq<Message>, calls: seq<ToolCall>)
    requires calls != []
    ensures Following(rest, Expected(calls), {}) == |calls|
            <==> |calls| <= |rest| && Answers(calls, rest[..|calls|])
  {
    hide Answers, Following, Expected;
    if Following(rest, Expected(calls), {}) == |calls| { CountedAnswers(rest, calls); }
    if |calls| <= |rest| && Answers(calls, rest[..|calls|]) { AnswersCounted(rest, calls); }
  }

  lemma CountedAnswers(rest: seq<Message>, calls: seq<ToolCall>)
    requires Following(rest, Expected(calls), {}) == |calls|
    ensures Answers(calls, rest[..|calls|])
  {
    hide Following, AnswersOne;
    var tools := rest[..|calls|];
    FollowingTakes(rest, Expected(calls), {});
    assert forall i :: 0 <= i < |tools| ==> AnswersOne(tools[i], Expected(calls)) && tools[i] == rest[i];
    AllAnswered(calls, tools);
  }

  lemma AllAnswered(calls: seq<ToolCall>, tools: seq<Message>)
    requires |tools| == |calls|
    requires forall i :: 0 <= i < |tools| ==> AnswersOne(tools[i], Expected(calls))
    requires forall i, j :: 0 <= i < j < |tools| ==> tools[i].callId != tools[j].callId
    ensures Answers(calls, tools)
  {
    ExpectedSize(calls);
    DistinctIdsSize(tools);
    assert IdsOf(tools) <= Expected(calls);
    SubsetOfSameSize(IdsOf(tools), Expected(calls));
    forall c | c in calls ensures exists i :: 0 <= i < |tools| && tools[i].callId == Some(c.id) {
      assert c.id in Expected(calls);
    }
  }

  lemma AnswersCounted(rest: seq<Message>, calls: seq<ToolCall>)
    requires calls != [] && |calls| <= |rest| && Answers(calls, rest[..|calls|])
    ensures Following(rest, Expected(calls), {}) == |calls|
  {
    hide Following;
    var tools := rest[..|calls|];
    assert forall i :: 0 <= i < |tools| ==> tools[i] == rest[i];
    assert IdsOf(tools) == Expected(calls);
    FollowingReaches(rest, Expected(calls), {}, |calls|);
  }

  lemma SubsetOfSameSize<T>(a: set<T>, b: set<T>)
    requires a <= b && |b| <= |a|
    ensures a == b
  {
    assert |b - a| == |b| - |a|;
  }

  lemma WellFormedPush(b: seq<Message>, ms: seq<Message>)
    requires IsBlock(b)
    ensures WellFormed(b + ms) <==> WellFormed(ms)
  {
    hide Answers;
    assert (b + ms)[..|b|] == b && (b + ms)[|b|..] == ms;
  }

  lemma HeadKeepsBlocks(ms: seq<Message>)
    requires ms != []
    ensures var (n, kept) := Head(ms); kept ==> IsBlock(ms[..n])
  {
    hide Answers, Following, Expected;
    var (n, kept) := Head(ms);
    if kept && IsCalling(ms[0]) {
      FollowingComplete(ms[1..], ms[0].calls);
      assert ms[1..][..n - 1] == ms[..n][1..];
    }
  }

  lemma HeadOfBlock(b: seq<Message>, ms: seq<Message>)
    requires IsBlock(b)
    ensures Head(b + ms) == (|b|, true)
  {
    hide Answers, Following, Expected;
    if IsCalling(b[0]) {
      assert (b + ms)[1..][..|b| - 1] == b[1..];
      FollowingComplete((b + ms)[1..], b[0].calls);
    }
  }

  /** The organizer's output always follows the tool protocol. */
  lemma {:induction false} FilterIsWellFormed(ms: seq<Message>)
    ensures WellFormed(Filtered(ms))
    decreases |ms|
  {
    hide Head, IsBlock;
    if ms != [] {
      var (n, kept) := Head(ms);
      FilterIsWellFormed(ms[n..]);
      HeadKeepsBlocks(ms);
      if kept { WellFormedPush(ms[..n], Filtered(ms[n..])); }
      assert [] + Filtered(ms[n..]) == Filtered(ms[n..]);
    }
  }

  lemma {:induction false} FilterKeepsWellFormed(ms: seq<Message>)
    requires WellFormed(ms)
    ensures Filtered(ms) == ms
    decreases |ms|
  {
    hide Head, IsBlock;
    if ms != [] {
      var n := BlockSize(ms[0]);
      assert ms[..n] + ms[n..] == ms;
      HeadOfBlock(ms[..n], ms[n..]);
      FilterKeepsWellFormed(ms[n..]);
    }
  }

  /** The filter changes nothing exactly when the transcript follows the tool protocol. */
  lemma FilterFixesExactly(ms: seq<Message>)
    ensures Filtered(ms) == ms <==> WellFormed(ms)
    ensures Filtered(Filtered(ms)) == Filtered(ms)
  {
    FilterIsWellFormed(ms);
    FilterKeepsWellFormed(Filtered(ms));
    if WellFormed(ms) { FilterKeepsWellFormed(ms); }
  }

  /** Answers are only looked for up to the next message of another role. */
  lemma {:induction false} FollowingAcross(a: seq<Message>, b: seq<Message>, expected: set<string>, seen: set<string>)
    requires b != [] ==> b[0].role != ToolRole
    ensures Following(a + b, expected, seen) == Following(a, expected, seen)
    decreases |a|
  {
    if a == [] {
      assert a + b == b;
    } else if AnswersOne(a[0], expected) {
      assert (a + b)[1..] == a[1..] + b;
      FollowingAcross(a[1..], b, expected, seen + {a[0].callId.value});
    }
  }

  /** The filter works on the parts of a transcript apart, wherever the second does not start
      with an answer. */
  lemma {:induction false} FilterAcross(a: seq<Message>, b: seq<Message>)
    requires b != [] ==> b[0].role != ToolRole
    ensures Filtered(a + b) == Filtered(a) + Filtered(b)
    decreases |a|
  {
    hide Filtered, Head;
    FilterOfNothing();
    if a == [] {
      assert a + b == b;
    } else {
      var (n, _) := Head(a);
      HeadAcross(a, b);
      FilterHead(a);
      FilterHead(a + b);
      assert (a + b)[n..] == a[n..] + b && (a + b)[..n] == a[..n];
      FilterAcross(a[n..], b);
    }
  }

  lemma HeadAcross(a: seq<Message>, b: seq<Message>)
    requires a != [] && (b != [] ==> b[0].role != ToolRole)
    ensures Head(a + b) == Head(a)
  {
    hide Following, Expected;
    assert (a + b)[1..] == a[1..] + b;
    FollowingAcross(a[1..], b, Expected(a[0].calls), {});
  }

  lemma FilterHead(ms: seq<Message>)
    requires ms != []
    ensures var (n, kept) := Head(ms); Filtered(ms) == (if kept then ms[..n] else []) + Filtered(ms[n..])
  {
    hide Head;
  }

  /** Answers to nothing are dropped. */
  lemma {:induction false} FilterDropsAnswers(ms: seq<Message>)
    requires forall m :: m in ms ==> m.role == ToolRole
    ensures Filtered(ms) == []
    decreases |ms|
  {
    if ms != [] { FilterDropsAnswers(ms[1..]); }
  }

  lemma WellFormedPop(ms: seq<Message>)
    requires WellFormed(ms) && ms != []
    ensures var n := BlockSize(ms[0]);
            && n <= |ms| && IsBlock(ms[..n]) && WellFormed(ms[n..]) && ms == ms[..n] + ms[n..]
  {
    hide IsBlock, BlockSize, Answers;
    var n := BlockSize(ms[0]);
    assert n <= |ms|;
  }

  lemma {:induction false} WellFormedConcat(a: seq<Message>, b: seq<Message>)
    requires WellFormed(a) && WellFormed(b)
    ensures WellFormed(a + b)
    decreases |a|
  {
    hide IsBlock, WellFormed;
    if a == [] {
      assert a + b == b;
    } else {
      WellFormedPop(a);
      var n := BlockSize(a[0]);
      WellFormedConcat(a[n..], b);
      WellFormedPush(a[..n], a[n..] + b);
      assert a[..n] + (a[n..] + b) == a + b;
    }
  }

  // ------------------------------------------------------------------ subsequences

  ghost predicate IsSubseq(a: seq<Message>, b: seq<Message>)
    decreases |b|
  {
    a == [] || (b != [] && ((a[0] == b[0] && IsSubseq(a[1..], b[1..])) || IsSubseq(a, b[1..])))
  }

  lemma {:induction false} SubseqTransitive(a: seq<Message>, b: seq<Message>, c: seq<Message>)
    requires IsSubseq(a, b) && IsSubseq(b, c)
    ensures IsSubseq(a, c)
    decreases |b| + |c|
  {
    if a != [] {
      if b[0] == c[0] && IsSubseq(b[1..], c[1..]) {
        if a[0] == b[0] && IsSubseq(a[1..], b[1..]) {
          SubseqTransitive(a[1..], b[1..], c[1..]);
        } else {
          SubseqTransitive(a, b[1..], c[1..]);
        }
      } else {
        SubseqTransitive(a, b, c[1..]);
      }
    }
  }

  lemma {:induction false} SubseqConcat(a: seq<Message>, b: seq<Message>, c: seq<Message>, d: seq<Message>)
    requires IsSubseq(a, b) && IsSubseq(c, d)
    ensures IsSubseq(a + c, b + d)
    decreases |b|
  {
    if b == [] {
      assert a + c == c && b + d == d;
    } else {
      assert (b + d)[1..] == b[1..] + d;
      if a != [] && a[0] == b[0] && IsSubseq(a[1..], b[1..]) {
        SubseqConcat(a[1..], b[1..], c, d);
        assert (a + c)[1..] == a[1..] + c;
      } else {
        SubseqConcat(a, b[1..], c, d);
      }
    }
  }

  lemma {:induction false} SubseqSelf(a: seq<Message>)
    ensures IsSubseq(a, a)
  {
    if a != [] { SubseqSelf(a[1..]); }
  }

  /** The filter only drops messages. */
  lemma {:induction false} FilterIsSubseq(ms: seq<Message>)
    ensures IsSubseq(Filtered(ms), ms)
    decreases |ms|
  {
    hide Head;
    if ms != [] {
      var (n, kept) := Head(ms);
      FilterIsSubseq(ms[n..]);
      SubseqSelf(ms[..n]);
      SubseqConcat(if kept then ms[..n] else [], ms[..n], Filtered(ms[n..]), ms[n..]);
      assert ms[..n] + ms[n..] == ms;
    }
  }

  // ------------------------------------------------------------ prefix and groups

  function PrefixSize(ms: seq<Message>): (n: nat)
    ensures n <= |ms|
    ensures forall i :: 0 <= i < n ==> ms[i].role == System
    ensures n < |ms| ==> ms[n].role != System
  {
    if ms == [] || ms[0].role != System then 0 else 1 + PrefixSize(ms[1..])
  }

  method SystemPrefix(messages: seq<Message>) returns (prefix: seq<Message>, remainder: seq<Message>)
    ensures prefix == messages[..PrefixSize(messages)] && remainder == messages[PrefixSize(messages)..]
  {
    var i := 0;
    while i < |messages| && messages[i].role == System
      invariant 0 <= i <= |messages|
      invariant forall k :: 0 <= k < i ==> messages[k].role == System
    {
      i := i + 1;
    }
    assert i == PrefixSize(messages);
    return messages[..i], messages[i..];
  }

  /** How many messages after a call join its group: here a repeated answer joins too. */
  function Joining(rest: seq<Message>, expected: set<string>): (n: nat)
    ensures n <= |rest|
  {
    if rest == [] || !AnswersOne(rest[0], expected) then 0 else 1 + Joining(rest[1..], expected)
  }

  function GroupSize(ms: seq<Message>): (n: nat)
    requires ms != []
    ensures 0 < n <= |ms|
  {
    if IsCalling(ms[0]) then 1 + Joining(ms[1..], Expected(ms[0].calls)) else 1
  }

  /** _message_groups. */
  function Groups(ms: seq<Message>): seq<seq<Message>>
    decreases |ms|
  {
    if ms == [] then [] else [ms[..GroupSize(ms)]] + Groups(ms[GroupSize(ms)..])
  }

  lemma GroupsStep(messages: seq<Message>, i: nat)
    requires i < |messages|
    ensures var n := GroupSize(messages[i..]);
            && i + n <= |messages|
            && Groups(messages[i..]) == [messages[i..i + n]] + Groups(messages[i + n..])
  {
    var n := GroupSize(messages[i..]);
    assert messages[i..][..n] == messages[i..i + n] && messages[i..][n..] == messages[i + n..];
  }

  method MessageGroups(messages: seq<Message>) returns (groups: seq<seq<Message>>)
    ensures groups == Groups(messages)
  {
    hide Groups, GroupSize;
    groups := [];
    var i := 0;
    assert messages[0..] == messages;
    while i < |messages|
      invariant 0 <= i <= |messages|
      invariant groups + Groups(messages[i..]) == Groups(messages)
    {
      GroupsStep(messages, i);
      var next := GroupEnd(messages, i);
      assert groups + ([messages[i..next]] + Groups(messages[next..])) == (groups + [messages[i..next]]) + Groups(messages[next..]);
      groups := groups + [messages[i..next]];
      i := next;
    }
    assert messages[i..] == [];
    GroupsOfNothing();
  }

  /** The inner loop of _message_groups: the index after the group that starts at `i`. */
  method GroupEnd(messages: seq<Message>, i: nat) returns (next: nat)
    requires i < |messages|
    ensures next == i + GroupSize(messages[i..])
  {
    hide Expected, AnswersOne;
    next := i + 1;
    if IsCalling(messages[i]) {
      var expected := Expected(messages[i].calls);
      assert messages[i..][1..] == messages[i + 1..];
      while next < |messages| && AnswersOne(messages[next], expected)
        invariant i < next <= |messages|
        invariant Joining(messages[i + 1..], expected) == next - (i + 1) + Joining(messages[next..], expected)
      {
        assert messages[next..][1..] == messages[next + 1..];
        next := next + 1;
      }
      assert messages[|messages|..] == [];
    }
  }

  lemma GroupsOfNothing()
    ensures Groups([]) == []
  {
  }

  function Flatten(groups: seq<seq<Message>>): seq<Message> {
    if groups == [] then [] else groups[0] + Flatten(groups[1..])
  }

  /** Grouping loses nothing, and groups are never empty. */
  lemma {:induction false} GroupsFlatten(ms: seq<Message>)
    ensures Flatten(Groups(ms)) == ms
    ensures forall g :: g in Groups(ms) ==> g != []
    decreases |ms|
  {
    hide *;
    if ms == [] {
      GroupsOfNothing();
      FlattenOfNothing();
    } else {
      var n := GroupSize(ms);
      FirstGroup(ms);
      GroupsFlatten(ms[n..]);
      FlattenCons(ms[..n], Groups(ms[n..]));
      assert ms[..n] + ms[n..] == ms;
    }
  }

  lemma FirstGroup(ms: seq<Message>)
    requires ms != []
    ensures 0 < GroupSize(ms) <= |ms| && Groups(ms) == [ms[..GroupSize(ms)]] + Groups(ms[GroupSize(ms)..])
  {
    hide GroupSize;
  }

  lemma FlattenOfNothing()
    ensures Flatten([]) == []
  {
  }

  lemma FlattenCons(group: seq<Message>, rest: seq<seq<Message>>)
    ensures Flatten([group] + rest) == group + Flatten(rest)
  {
    assert ([group] + rest)[1..] == rest;
  }

  lemma {:induction false} JoiningCounts(rest: seq<Message>, expected: set<string>, n: nat)
    requires n <= |rest| && forall i :: 0 <= i < n ==> AnswersOne(rest[i], expected)
    requires n < |rest| ==> rest[n].role != ToolRole
    ensures Joining(rest, expected) == n
    decreases |rest|
  {
    if n > 0 {
      assert forall i :: 0 <= i < n - 1 ==> rest[1..][i] == rest[i + 1];
      JoiningCounts(rest[1..], expected, n - 1);
    }
  }

  lemma GroupOfBlock(b: seq<Message>, ms: seq<Message>)
    requires IsBlock(b) && (ms != [] ==> ms[0].role != ToolRole)
    ensures GroupSize(b + ms) == |b|
  {
    if IsCalling(b[0]) {
      var rest := (b + ms)[1..];
      assert forall i :: 0 <= i < |b| - 1 ==> rest[i] == b[1..][i];
      assert |b| - 1 < |rest| ==> rest[|b| - 1] == ms[0];
      JoiningCounts(rest, Expected(b[0].calls), |b| - 1);
    }
  }

  /** In a well-formed transcript a group is a call with exactly its answers, or one plain message. */
  lemma {:induction false} GroupsAreBlocks(ms: seq<Message>)
    requires WellFormed(ms)
    ensures forall g :: g in Groups(ms) ==> IsBlock(g)
    decreases |ms|
  {
    hide Answers, GroupSize;
    if ms != [] {
      var n := BlockSize(ms[0]);
      assert ms[..n] + ms[n..] == ms;
      GroupOfBlock(ms[..n], ms[n..]);
      GroupsAreBlocks(ms[n..]);
    }
  }
}
