/** The shape of a run's progress: rounds of tool calls answered in order
    (agent_execution.py:433, agent_state.py), and the transcript it commits. */
module Protocol {
  import opened Wrappers
  import opened Content
  import opened Runs
  import opened Agreement
  import opened Context
  import opened Strategies

  // ------------------------------------------------------------------------- rounds

  function LastChat(p: seq<Step>): Option<Response> {
    if p == [] then None
    else if p[|p| - 1].kind == ChatStep then p[|p| - 1].response
    else LastChat(p[..|p| - 1])
  }

  /** The calls of the last response that have no result yet, each result taking up the next call. */
  function Pending(p: seq<Step>): seq<ToolCall> {
    if p == [] then []
    else if p[|p| - 1].kind == ChatStep then CallsOf(p[|p| - 1].response)
    else
      var before := Pending(p[..|p| - 1]);
      if before == [] then [] else before[1..]
  }

  /** The last response asked for tools and has every result. */
  predicate Complete(p: seq<Step>) {
    CallsOf(LastChat(p)) != [] && Pending(p) == []
  }

  /** A reply as a provider sends it: from the assistant, active, with distinct call ids. */
  predicate GoodReply(m: Message) {
    m.role == Assistant && IsActive(m) && Distinct(CallIds(m.calls))
  }

  predicate ReplyOk(s: Step) {
    && s.kind == ChatStep && s.response.Some? && s.message == Some(s.response.value.message)
    && GoodReply(s.response.value.message)
  }

  predicate AnswerOk(s: Step, id: string) {
    && IsToolStep(s) && s.call.Some? && s.call.value.id == id
    && s.message.Some? && s.message.value.role == ToolRole && s.message.value.callId == Some(id)
    && IsActive(s.message.value)
  }

  /** Every round but the last is complete, and the tool steps of a round are a prefix, in
      order, of the calls of its response. */
  predicate InProtocol(p: seq<Step>) {
    p == [] ||
    var front, last := p[..|p| - 1], p[|p| - 1];
    && InProtocol(front)
    && if last.kind == ChatStep then ReplyOk(last) && (front == [] || Complete(front))
       else Pending(front) != [] && AnswerOk(last, Pending(front)[0].id)
  }

  lemma PushChat(p: seq<Step>, s: Step)
    requires s.kind == ChatStep
    ensures LastChat(p + [s]) == s.response && Pending(p + [s]) == CallsOf(s.response)
    ensures Round(p + [s]) == Round(p) + 1 && CompletedIds(p + [s]) == {}
    ensures InProtocol(p + [s]) <==> InProtocol(p) && ReplyOk(s) && (p == [] || Complete(p))
  {
    assert (p + [s])[..|p|] == p;
  }

  lemma PushTool(p: seq<Step>, s: Step)
    requires IsToolStep(s)
    ensures LastChat(p + [s]) == LastChat(p)
    ensures Pending(p + [s]) == if Pending(p) == [] then [] else Pending(p)[1..]
    ensures Round(p + [s]) == Round(p)
    ensures InProtocol(p + [s]) <==> InProtocol(p) && Pending(p) != [] && AnswerOk(s, Pending(p)[0].id)
  {
    assert (p + [s])[..|p|] == p;
  }

  lemma {:induction false} ProtocolPrefix(p: seq<Step>, n: nat)
    requires InProtocol(p) && n <= |p|
    ensures InProtocol(p[..n])
    decreases |p|
  {
    if n < |p| {
      ProtocolPrefix(p[..|p| - 1], n);
      assert p[..|p| - 1][..n] == p[..n];
    } else {
      assert p[..n] == p;
    }
  }

  function IdSet(calls: seq<ToolCall>): set<string> {
    set i | 0 <= i < |calls| :: calls[i].id
  }

  /** How the results of the current round relate to its calls. */
  lemma {:induction false} PendingIs(p: seq<Step>)
    requires InProtocol(p)
    ensures var calls := CallsOf(LastChat(p));
            var m := |calls| - |Pending(p)|;
            && 0 <= m && Pending(p) == calls[m..] && CompletedIds(p) == IdSet(calls[..m])
            && Distinct(CallIds(calls))
            && (m > 0 ==> p != [] && IsToolStep(p[|p| - 1]))
            && (LastChat(p) == None ==> p == [])
  {
    if p != [] {
      var front, last := p[..|p| - 1], p[|p| - 1];
      PendingIs(front);
      var calls := CallsOf(LastChat(p));
      if last.kind == ChatStep {
        assert calls[..0] == [];
      } else {
        var m := |calls| - |Pending(front)|;
        assert Pending(front)[0] == calls[m];
        assert calls[m..][1..] == calls[m + 1..];
        assert calls[..m + 1] == calls[..m] + [calls[m]];
        IdSetPush(calls[..m], calls[m]);
      }
    }
  }

  lemma IdSetPush(calls: seq<ToolCall>, c: ToolCall)
    ensures IdSet(calls + [c]) == IdSet(calls) + {c.id}
  {
    forall id | id in IdSet(calls) + {c.id} ensures id in IdSet(calls + [c]) {
      if id == c.id {
        assert (calls + [c])[|calls|] == c;
      } else {
        var i :| 0 <= i < |calls| && calls[i].id == id;
        assert (calls + [c])[i] == calls[i];
      }
    }
  }

  lemma DoneBelow(calls: seq<ToolCall>, m: nat, i: nat)
    requires i < |calls| && m <= |calls| && Distinct(CallIds(calls))
    ensures calls[i].id in IdSet(calls[..m]) <==> i < m
  {
    if i < m {
      assert calls[..m][i] == calls[i];
    } else {
      forall k | 0 <= k < m ensures calls[..m][k].id != calls[i].id {
        assert CallIds(calls)[k] != CallIds(calls)[i];
      }
    }
  }

  lemma {:induction false} IncompleteFrom(calls: seq<ToolCall>, m: nat, i: nat)
    requires i <= |calls| && m <= |calls| && Distinct(CallIds(calls))
    ensures IncompleteCalls(calls[i..], IdSet(calls[..m])) == calls[if i < m then m else i..]
    decreases |calls| - i
  {
    hide *;
    if i < |calls| {
      IncompleteFrom(calls, m, i + 1);
      DoneBelow(calls, m, i);
      IncompleteStep(calls, IdSet(calls[..m]), i);
      assert calls[i..] == [calls[i]] + calls[i + 1..];
    } else {
      NoneIncomplete(IdSet(calls[..m]));
      assert calls[i..] == [];
    }
  }

  lemma NoneIncomplete(done: set<string>)
    ensures IncompleteCalls([], done) == []
  {
  }

  lemma IncompleteStep(calls: seq<ToolCall>, done: set<string>, i: nat)
    requires i < |calls|
    ensures var rest := IncompleteCalls(calls[i + 1..], done);
            IncompleteCalls(calls[i..], done) == if calls[i].id in done then rest else [calls[i]] + rest
  {
    assert calls[i..][1..] == calls[i + 1..];
  }

  /** The calls a resumed or recovered run still finds incomplete are exactly the pending ones. */
  lemma IncompleteIsPending(p: seq<Step>)
    requires InProtocol(p)
    ensures IncompleteCalls(CallsOf(LastChat(p)), CompletedIds(p)) == Pending(p)
  {
    hide InProtocol, LastChat, Pending, CompletedIds, Distinct, IdSet, CallIds, IncompleteCalls;
    PendingIs(p);
    var calls := CallsOf(LastChat(p));
    assert calls[0..] == calls;
    IncompleteFrom(calls, |calls| - |Pending(p)|, 0);
  }

  /** Rounds and completed ids depend on the progress steps only. */
  lemma {:induction false} ProgressCounts(steps: seq<Step>)
    ensures Round(Progress(steps)) == Round(steps)
    ensures CompletedIds(Progress(steps)) == CompletedIds(steps)
  {
    if steps != [] {
      var front, last := steps[..|steps| - 1], steps[|steps| - 1];
      ProgressCounts(front);
      if IsProgress(last) {
        var p := Progress(front) + [last.(eventId := None)];
        assert p[..|p| - 1] == Progress(front);
      }
    }
  }

  // --------------------------------------------------------------------- transcripts

  /** The messages of the recorded responses, results and errors, in order. */
  function MessagesOf(steps: seq<Step>): seq<Message> {
    if steps == [] then []
    else
      var before, last := MessagesOf(steps[..|steps| - 1]), steps[|steps| - 1];
      if IsProgress(last) && last.message.Some? then before + [last.message.value] else before
  }

  /** _run_transcript. */
  function Transcript(run: Run): seq<Message> {
    run.request.messages + MessagesOf(run.steps)
  }

  method RunTranscript(run: Run) returns (transcript: seq<Message>)
    ensures transcript == Transcript(run)
  {
    transcript := run.request.messages;
    var i := 0;
    while i < |run.steps|
      invariant 0 <= i <= |run.steps|
      invariant transcript == run.request.messages + MessagesOf(run.steps[..i])
    {
      var step := run.steps[i];
      assert run.steps[..i + 1][..i] == run.steps[..i];
      if IsProgress(step) && step.message.Some? {
        transcript := transcript + [step.message.value];
      }
      i := i + 1;
    }
    assert run.steps[..|run.steps|] == run.steps;
  }

  lemma {:induction false} ProgressMessages(steps: seq<Step>)
    ensures MessagesOf(Progress(steps)) == MessagesOf(steps)
  {
    if steps != [] {
      var front, last := steps[..|steps| - 1], steps[|steps| - 1];
      ProgressMessages(front);
      if IsProgress(last) {
        var p := Progress(front) + [last.(eventId := None)];
        assert p[..|p| - 1] == Progress(front);
      }
    }
  }

  /** Where the current round starts. */
  function ChatIndex(p: seq<Step>): (k: nat)
    ensures k <= |p|
  {
    if p == [] then 0 else if p[|p| - 1].kind == ChatStep then |p| - 1 else ChatIndex(p[..|p| - 1])
  }

  /** The messages of the current round: the response, then its results so far. */
  function RoundMessages(p: seq<Step>): seq<Message> {
    if p == [] then []
    else if p[|p| - 1].kind == ChatStep then
      if p[|p| - 1].message.Some? then [p[|p| - 1].message.value] else []
    else RoundMessages(p[..|p| - 1]) + (if p[|p| - 1].message.Some? then [p[|p| - 1].message.value] else [])
  }

  lemma LastMessage(p: seq<Step>)
    requires p != [] && IsProgress(p[|p| - 1]) && p[|p| - 1].message.Some?
    ensures MessagesOf(p) == MessagesOf(p[..|p| - 1]) + [p[|p| - 1].message.value]
  {
  }

  lemma {:induction false} RoundSplits(p: seq<Step>)
    requires InProtocol(p) && p != []
    ensures var k := ChatIndex(p);
            && k < |p| && InProtocol(p[..k]) && (k == 0 || Complete(p[..k]))
            && MessagesOf(p) == MessagesOf(p[..k]) + RoundMessages(p)
    ensures AnswersInOrder(RoundMessages(p), LastChat(p), |CallsOf(LastChat(p))| - |Pending(p)|)
  {
    hide AnswersInOrder, GoodReply, MessagesOf;
    var front, last := p[..|p| - 1], p[|p| - 1];
    LastMessage(p);
    if last.kind == ChatStep {
      ChatStarts(last);
    } else {
      PendingIs(front);
      RoundSplits(front);
      RoundGoesOn(p);
    }
  }

  lemma RoundGoesOn(p: seq<Step>)
    requires p != [] && p[|p| - 1].kind != ChatStep
    requires var front := p[..|p| - 1]; var k, calls := ChatIndex(front), CallsOf(LastChat(front));
             && k < |front| && MessagesOf(front) == MessagesOf(front[..k]) + RoundMessages(front)
             && AnswersInOrder(RoundMessages(front), LastChat(front), |calls| - |Pending(front)|)
             && Pending(front) != [] && |Pending(front)| <= |calls|
             && AnswerOk(p[|p| - 1], calls[|calls| - |Pending(front)|].id)
    ensures var k := ChatIndex(p);
            && k < |p| && p[..k] == p[..|p| - 1][..ChatIndex(p[..|p| - 1])]
            && MessagesOf(p) == MessagesOf(p[..k]) + RoundMessages(p)
    ensures AnswersInOrder(RoundMessages(p), LastChat(p), |CallsOf(LastChat(p))| - |Pending(p)|)
  {
    hide AnswersInOrder, GoodReply;
    var front, last := p[..|p| - 1], p[|p| - 1];
    assert front[..ChatIndex(p)] == p[..ChatIndex(p)];
    ToolContinues(RoundMessages(front), LastChat(p), |CallsOf(LastChat(p))| - |Pending(front)|, last);
  }

  /** A response's message followed by answers to its first `m` calls. */
  ghost predicate AnswersInOrder(ms: seq<Message>, response: Option<Response>, m: int) {
    && response.Some? && 0 <= m <= |CallsOf(response)| && |ms| == 1 + m
    && ms[0] == response.value.message && GoodReply(ms[0])
    && forall j :: 1 <= j <= m ==>
         ms[j].role == ToolRole && ms[j].callId == Some(CallsOf(response)[j - 1].id) && IsActive(ms[j])
  }

  lemma ChatStarts(s: Step)
    requires ReplyOk(s)
    ensures AnswersInOrder([s.message.value], s.response, 0)
  {
  }

  lemma ToolContinues(ms: seq<Message>, response: Option<Response>, m: int, s: Step)
    requires AnswersInOrder(ms, response, m) && m < |CallsOf(response)| && AnswerOk(s, CallsOf(response)[m].id)
    ensures AnswersInOrder(ms + [s.message.value], response, m + 1)
  {
  }

  /** A finished round is a block of a transcript. */
  lemma RoundIsBlock(ms: seq<Message>, response: Option<Response>)
    requires AnswersInOrder(ms, response, |CallsOf(response)|)
    ensures IsBlock(ms)
  {
    var calls := CallsOf(response);
    if calls != [] {
      var tools := ms[1..];
      forall i | 0 <= i < |tools| ensures AnswersOne(tools[i], Expected(calls)) && tools[i].callId == Some(calls[i].id) {
        assert tools[i] == ms[i + 1];
      }
      forall i, j | 0 <= i < j < |tools| ensures tools[i].callId != tools[j].callId {
        assert CallIds(calls)[i] != CallIds(calls)[j];
      }
      forall c | c in calls ensures exists i :: 0 <= i < |tools| && tools[i].callId == Some(c.id) {
        var i :| 0 <= i < |calls| && calls[i] == c;
      }
    }
  }

  /** A round with calls left over is no block, and no well-formed transcript can end with it. */
  lemma OpenRoundIsNot(ms: seq<Message>, response: Option<Response>, m: int)
    requires AnswersInOrder(ms, response, m) && m < |CallsOf(response)|
    ensures !WellFormed(ms)
  {
    assert BlockSize(ms[0]) > |ms|;
  }

  /** A transcript that does not start with a tool message can be cut off a well-formed one. */
  lemma {:induction false} WellFormedCut(a: seq<Message>, b: seq<Message>)
    requires WellFormed(a + b) && (b != [] ==> b[0].role != ToolRole)
    ensures WellFormed(a) && WellFormed(b)
    decreases |a|
  {
    if a == [] {
      assert a + b == b;
    } else {
      var n := BlockSize(a[0]);
      BlockInside(a, b, n);
      CutConcat(a, b, n);
      WellFormedCut(a[n..], b);
    }
  }

  lemma CutConcat(a: seq<Message>, b: seq<Message>, n: nat)
    requires n <= |a|
    ensures (a + b)[..n] == a[..n] && (a + b)[n..] == a[n..] + b
  {
  }

  /** A block that starts in `a` ends in `a`, since `b` does not start with an answer. */
  lemma BlockInside(a: seq<Message>, b: seq<Message>, n: nat)
    requires a != [] && n <= |a + b| && IsBlock((a + b)[..n])
    requires b != [] ==> b[0].role != ToolRole
    ensures n <= |a|
  {
    hide Expected;
    var block := (a + b)[..n];
    forall i | 1 <= i < n ensures (a + b)[i].role == ToolRole {
      assert (a + b)[i] == block[1..][i - 1];
    }
    if b != [] { assert (a + b)[|a|] == b[0]; }
  }

  /** The messages of a run in protocol: well-formed exactly when no call is left pending. */
  lemma {:induction false} ProgressWellFormed(p: seq<Step>)
    requires InProtocol(p)
    ensures WellFormed(MessagesOf(p)) <==> Pending(p) == []
    ensures MessagesOf(p) != [] ==> MessagesOf(p)[0].role == Assistant
    ensures forall m :: m in MessagesOf(p) ==> IsActive(m)
    decreases |p|
  {
    hide InProtocol, IsBlock, WellFormed, AnswersInOrder;
    if p == [] {
      NothingIsWellFormed();
    } else {
      var k, round := ChatIndex(p), RoundMessages(p);
      RoundSplits(p);
      PendingIs(p);
      ProgressWellFormed(p[..k]);
      OrderedRound(round, LastChat(p), |CallsOf(LastChat(p))| - |Pending(p)|);
      var before := MessagesOf(p[..k]);
      if Pending(p) == [] {
        RoundIsBlock(round, LastChat(p));
        NothingIsWellFormed();
        WellFormedPush(round, []);
        assert round + [] == round;
        WellFormedConcat(before, round);
      } else {
        OpenRoundIsNot(round, LastChat(p), |CallsOf(LastChat(p))| - |Pending(p)|);
        if WellFormed(before + round) { WellFormedCut(before, round); }
      }
    }
  }

  lemma OrderedRound(ms: seq<Message>, response: Option<Response>, m: int)
    requires AnswersInOrder(ms, response, m)
    ensures ms != [] && ms[0].role == Assistant && forall x :: x in ms ==> IsActive(x)
  {
    forall x | x in ms ensures IsActive(x) {
      var j :| 0 <= j < |ms| && ms[j] == x;
    }
  }

  lemma {:induction false} ActiveShorter(ms: seq<Message>)
    ensures |ActiveOf(ms)| <= |ms|
    ensures |ActiveOf(ms)| == |ms| <==> forall m :: m in ms ==> IsActive(m)
    ensures (forall m :: m in ms ==> IsActive(m)) ==> ActiveOf(ms) == ms
  {
    if ms != [] { ActiveShorter(ms[1..]); }
  }

  lemma {:induction false} SubseqShorter(a: seq<Message>, b: seq<Message>)
    requires IsSubseq(a, b)
    ensures |a| <= |b|
    decreases |b|
  {
    if a != [] {
      if a[0] == b[0] && IsSubseq(a[1..], b[1..]) { SubseqShorter(a[1..], b[1..]); }
      else { SubseqShorter(a, b[1..]); }
    }
  }

  /** The organizer returns the messages unchanged. */
  predicate Survives(ms: seq<Message>) {
    Organized(ms) == ms
  }

  /** The organizer leaves a transcript unchanged exactly when all of it is active and it
      follows the tool protocol. */
  lemma OrganizerKeeps(ms: seq<Message>)
    ensures Survives(ms) <==> (forall m :: m in ms ==> IsActive(m)) && WellFormed(ms)
  {
    hide Filtered, WellFormed, ActiveOf, IsSubseq;
    ActiveShorter(ms);
    FilterFixesExactly(ms);
    FilterIsSubseq(ActiveOf(ms));
    SubseqShorter(Filtered(ActiveOf(ms)), ActiveOf(ms));
  }

  /** What a run in protocol commits survives the organizer exactly when its request does and
      the last response has every result. */
  lemma TranscriptSurvives(run: Run)
    requires InProtocol(Progress(run.steps))
    ensures Survives(Transcript(run)) <==> Survives(run.request.messages) && Pending(Progress(run.steps)) == []
  {
    hide Survives, WellFormed, InProtocol, Progress, Pending;
    var a, b := run.request.messages, MessagesOf(run.steps);
    ProgressMessages(run.steps);
    ProgressWellFormed(Progress(run.steps));
    OrganizerKeeps(Transcript(run));
    OrganizerKeeps(a);
    if WellFormed(a) && WellFormed(b) { WellFormedConcat(a, b); }
    if WellFormed(a + b) { WellFormedCut(a, b); }
  }

  /** The messages of the complete rounds: all of them, or all before a response that still waits
      for results. */
  function Answered(p: seq<Step>): seq<Message> {
    if Pending(p) == [] then MessagesOf(p) else MessagesOf(p[..ChatIndex(p)])
  }

  /** Of what a run in protocol commits, the organizer returns what it returns of the request's
      messages, and every message of the run but those of a last round that lacks results. */
  lemma OnlyOpenRoundIsLost(run: Run)
    requires InProtocol(Progress(run.steps))
    ensures Organized(Transcript(run)) == Organized(run.request.messages) + Answered(Progress(run.steps))
  {
    hide WellFormed, InProtocol, Progress, Pending, Filtered, ActiveOf, Answered;
    var p, b := Progress(run.steps), MessagesOf(run.steps);
    ProgressMessages(run.steps);
    ProgressWellFormed(p);
    ActiveConcat(run.request.messages, b);
    ActiveShorter(b);
    FilterAcross(ActiveOf(run.request.messages), b);
    FilterKeepsAnswered(p);
  }

  lemma FilterKeepsAnswered(p: seq<Step>)
    requires InProtocol(p)
    ensures Filtered(MessagesOf(p)) == Answered(p)
  {
    hide InProtocol, WellFormed, Filtered, AnswersInOrder;
    ProgressWellFormed(p);
    if Pending(p) == [] {
      FilterKeepsWellFormed(MessagesOf(p));
    } else {
      var before, round := MessagesOf(p[..ChatIndex(p)]), RoundMessages(p);
      RoundSplits(p);
      NoPendingBefore(p[..ChatIndex(p)]);
      ProgressWellFormed(p[..ChatIndex(p)]);
      FilterKeepsWellFormed(before);
      OrderedRound(round, LastChat(p), |CallsOf(LastChat(p))| - |Pending(p)|);
      FilterAcross(before, round);
      OpenRoundIsDropped(round, LastChat(p), |CallsOf(LastChat(p))| - |Pending(p)|);
    }
  }

  lemma NoPendingBefore(p: seq<Step>)
    requires p == [] || Complete(p)
    ensures Pending(p) == []
  {
  }

  lemma OpenRoundIsDropped(ms: seq<Message>, response: Option<Response>, m: int)
    requires AnswersInOrder(ms, response, m) && m < |CallsOf(response)|
    ensures Filtered(ms) == []
  {
    hide Following, Expected;
    var (n, kept) := Head(ms);
    forall x | x in ms[n..] ensures x.role == ToolRole {
      var j :| 0 <= j < |ms[n..]| && ms[n..][j] == x;
      assert x == ms[n + j];
    }
    FilterDropsAnswers(ms[n..]);
  }

  lemma {:induction false} ActiveConcat(a: seq<Message>, b: seq<Message>)
    ensures ActiveOf(a + b) == ActiveOf(a) + ActiveOf(b)
    decreases |a|
  {
    hide ActiveOf;
    if a == [] {
      NothingActive();
      assert a + b == b;
    } else {
      ActiveStep(a);
      ActiveStep(a + b);
      assert (a + b)[1..] == a[1..] + b;
      ActiveConcat(a[1..], b);
    }
  }

  lemma NothingActive()
    ensures ActiveOf([]) == []
  {
  }

  lemma ActiveStep(ms: seq<Message>)
    requires ms != []
    ensures ActiveOf(ms) == (if IsActive(ms[0]) then [ms[0]] else []) + ActiveOf(ms[1..])
  {
  }
}
