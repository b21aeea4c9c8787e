/** What the ledger lets happen to a call, and what an operator's decision about an unknown
    attempt amounts to when the run goes on (agent_execution.py:707, agent_runs.py:597). */
module Operators {
  import opened Wrappers
  import opened Content
  import opened Runs
  import opened Ledger
  import opened Machine
  import opened Exclusive

  // -------------------------------------------------------------- what the ledger allows

  /** A started attempt whose outcome nobody knows, that must not be repeated and was not released
      for a retry. */
  predicate IsOpen(a: Attempt) {
    && (a.status == Started || a.status == Unknown)
    && a.policy == NonReplayable && a.resolution != Some(Retry)
  }

  /** A call is refused for its unknown outcome exactly when its latest attempt of the round is
      open, and its tool runs exactly when that is not so, it is known, and no attempt of the round
      has been concluded. A concluded attempt is served. Rows without a round refuse everything. */
  lemma PlanMeans(ledger: seq<Attempt>, runId: string, round: nat, id: string, tool: Option<ReplayPolicy>)
    ensures var plan, latest := PlanCall(ledger, runId, round, id, tool), Latest(ledger, round, id);
            && (plan == Refuse(LegacyAttempt) <==> HasUnscoped(ledger, id))
            && (plan == Refuse(UnknownOutcome) <==> !HasUnscoped(ledger, id) && latest.Some? && IsOpen(latest.value))
            && (plan.DispatchNew? || plan.DispatchScheduled? <==>
                  && !HasUnscoped(ledger, id) && tool.Some?
                  && (latest == None || (latest.value.status !in {Completed, AttemptFailed} && !IsOpen(latest.value))))
            && (plan.Serve? ==> latest.Some? && latest.value.status == Completed && latest.value.result == Some(plan.result))
            && (plan.ServeError? ==> latest.Some? && latest.value.status == AttemptFailed
                                     && (latest.value.error.Some? ==> latest.value.error == Some(plan.error)))
    ensures Resumable(ledger, round, id)
            <==> !HasUnscoped(ledger, id) && (Latest(ledger, round, id) == None || !IsOpen(Latest(ledger, round, id).value))
  {
    hide HasUnscoped, Latest, NextNumber;
    var latest := Latest(ledger, round, id);
    if latest.Some? {
      match latest.value.status
      case Scheduled => case Started => case Completed => case AttemptFailed => case Unknown =>
    }
  }

  /** Once a dispatched attempt is concluded, the same call of the same round is served just that
      outcome, however often it is executed again: the tool does not run twice. */
  lemma OutcomeIsServed(ledger: seq<Attempt>, runId: string, round: nat, call: ToolCall,
                        tool: Option<ReplayPolicy>, again: Option<ReplayPolicy>, outcome: Outcome)
    requires UniqueRows(ledger) && ResultsKept(ledger) && call.name.Some?
    requires var plan := PlanCall(ledger, runId, round, call.id, tool); plan.DispatchNew? || plan.DispatchScheduled?
    ensures PlanCall(Executed(ledger, runId, round, call, tool, outcome), runId, round, call.id, again)
            == (if outcome.Returned? then Serve(outcome.result) else ServeError(outcome.error))
  {
    hide UniqueRows, ResultsKept, Executed, HasUnscoped, Latest;
    StillScoped(ledger, runId, round, call, tool, outcome);
    ConcludedIsLatest(ledger, runId, round, call, tool, outcome);
  }

  lemma ConcludedIsLatest(ledger: seq<Attempt>, runId: string, round: nat, call: ToolCall, tool: Option<ReplayPolicy>, outcome: Outcome)
    requires UniqueRows(ledger) && call.name.Some?
    requires var plan := PlanCall(ledger, runId, round, call.id, tool); plan.DispatchNew? || plan.DispatchScheduled?
    ensures var latest := Latest(Executed(ledger, runId, round, call, tool, outcome), round, call.id);
            latest.Some? && (match outcome
                             case Returned(r) => latest.value.status == Completed && latest.value.result == Some(r)
                             case Raised(x) => latest.value.status == AttemptFailed && latest.value.error == Some(x))
  {
    hide UniqueRows, NextNumber, HasUnscoped, PutAttempt;
    var plan := PlanCall(ledger, runId, round, call.id, tool);
    var done := Concluded(plan.attempt.(status := Started), outcome);
    if plan.DispatchNew? {
      NewConcluded(ledger, plan.attempt, done, round);
    } else {
      PutLatest(ledger, done, round);
    }
  }

  lemma NewConcluded(ledger: seq<Attempt>, a: Attempt, done: Attempt, round: nat)
    requires a.number == NextNumber(ledger, a.id) && a.round == Some(round)
    requires done.id == a.id && done.number == a.number && done.round == a.round
    ensures Latest(PutAttempt(ledger + [a], done), round, a.id) == Some(done)
  {
    hide PutAttempt, Latest;
    PutNewest(ledger, a, done);
    NewestIsLatest(ledger, done, round);
  }

  lemma StillScoped(ledger: seq<Attempt>, runId: string, round: nat, call: ToolCall, tool: Option<ReplayPolicy>, outcome: Outcome)
    requires UniqueRows(ledger) && ResultsKept(ledger) && call.name.Some?
    requires var plan := PlanCall(ledger, runId, round, call.id, tool); plan.DispatchNew? || plan.DispatchScheduled?
    ensures !HasUnscoped(Executed(ledger, runId, round, call, tool, outcome), call.id)
  {
    hide UniqueRows, ResultsKept;
    ExecutionIsLocal(ledger, runId, round, call, tool, outcome);
    PlanMeans(ledger, runId, round, call.id, tool);
  }

  // ------------------------------------------------------------------- resolving

  /** The operator may decide about this attempt of a paused run, and it is the one that a resume
      in this round would ask the ledger about. */
  ghost predicate MayResolve(d: Durable, call: string, number: nat, round: nat) {
    var found := FindAttempt(d.ledger, call, number);
    && UniqueRows(d.ledger) && d.snap.status == Paused && !HasUnscoped(d.ledger, call)
    && found.Some? && found.value.status == Unknown && found.value.resolution == None
    && Latest(d.ledger, round, call) == found
  }

  function Resolution(d: Durable, id: nat, call: string, number: nat, confirmed: Option<string>): Durable {
    ApplyAll(d, ResolveWrites(d, id, call, number, confirmed))
  }

  lemma ResolutionIs(d: Durable, id: nat, call: string, number: nat, confirmed: Option<string>, round: nat)
    requires MayResolve(d, call, number, round)
    ensures var a := ResolvedAttempt(FindAttempt(d.ledger, call, number).value, confirmed);
            Resolution(d, id, call, number, confirmed).ledger == PutAttempt(d.ledger, a)
    ensures Resolution(d, id, call, number, confirmed).snap.pause
            == (if d.snap.pause == None then None
                else Some(d.snap.pause.value.(checkpoint := OperatorResolution,
                                              resumable := AllResolved(Resolution(d, id, call, number, confirmed).ledger))))
    ensures Resolution(d, id, call, number, confirmed).snap.status == Paused
  {
    hide AllResolved, PutAttempt, Passed, FindAttempt, Latest, UniqueRows, HasUnscoped, ResolvedAttempt;
    var ws := ResolveWrites(d, id, call, number, confirmed);
    assert ws == [ws[0], ws[1], ws[2]];
    ApplyThree(d, ws[0], ws[1], ws[2]);
  }

  /** A confirmed attempt: the ledger serves the call exactly what the operator stated. A released
      one: the tool runs under a new attempt of the same round with the same key. */
  lemma ResolutionDecides(d: Durable, id: nat, call: string, number: nat, confirmed: Option<string>,
                          round: nat, runId: string, tool: Option<ReplayPolicy>)
    requires MayResolve(d, call, number, round)
    ensures var plan := PlanCall(Resolution(d, id, call, number, confirmed).ledger, runId, round, call, tool);
            && (confirmed.Some? ==> plan == Serve(ToolResult(call, confirmed.value)))
            && (confirmed == None && tool.Some? ==>
                  && plan.DispatchNew? && plan.attempt.id == call && plan.attempt.round == Some(round)
                  && plan.attempt.key == Latest(d.ledger, round, call).value.key && plan.attempt.number > number
                  && plan.attempt.policy == tool.value && plan.attempt.status == Scheduled)
            && (confirmed == None && tool == None ==> plan == ToolMissing)
  {
    hide UniqueRows, ResolveWrites, ApplyAll, AllResolved, PutAttempt, HasUnscoped;
    ResolutionIs(d, id, call, number, confirmed, round);
    var found := FindAttempt(d.ledger, call, number).value;
    var a := ResolvedAttempt(found, confirmed);
    PutLatest(d.ledger, a, round);
    PutStaysScoped(d.ledger, a);
  }

  lemma PutStaysScoped(ledger: seq<Attempt>, a: Attempt)
    requires !HasUnscoped(ledger, a.id) && a.round.Some?
    ensures !HasUnscoped(PutAttempt(ledger, a), a.id)
  {
    var after := PutAttempt(ledger, a);
    forall x | x in after ensures x.round != None || x.id != a.id {
      var i :| 0 <= i < |after| && after[i] == x;
      assert ledger[i] in ledger;
    }
  }

  /** What the model is told: when the run goes on to a confirmed call, its tool is not called, and
      the result recorded for it is the one that the operator stated. */
  lemma ConfirmedIsTold(d: Durable, id: nat, call: string, number: nat, text: string,
                        live: Live, next: nat, runId: string, tool: Option<ReplayPolicy>)
    requires MayResolve(d, call, number, Round(live.run.steps))
    requires live.pc.Executing? && live.pc.call.id == call && live.pc.call.name.Some?
    ensures var after := Resolution(d, id, call, number, Some(text));
            var seg := ActSegment(after, live, next, runId, Execute(tool));
            && seg.writes != [] && seg.writes[0].Append? && (forall w :: w in seg.writes ==> !w.Send?)
            && seg.writes[0].event.kind == ToolCompleted && seg.writes[0].event.call == Some(live.pc.call)
            && seg.writes[0].event.result == Some(ToolResult(call, text))
            && seg.next.Some? && LastSays(seg.next.value.run, call, text)
  {
    hide PlanCall, Round, MayResolve, FindAttempt, AllResolved, Passed, Range;
    ResolutionDecides(d, id, call, number, Some(text), Round(live.run.steps), runId, tool);
    StillPaused(d, id, call, number, Some(text), Round(live.run.steps));
    ServedIsTold(Resolution(d, id, call, number, Some(text)), live, next, ToolResult(call, text));
  }

  lemma StillPaused(d: Durable, id: nat, call: string, number: nat, confirmed: Option<string>, round: nat)
    requires MayResolve(d, call, number, round)
    ensures Resolution(d, id, call, number, confirmed).snap.status == Paused
  {
    ResolutionIs(d, id, call, number, confirmed, round);
  }

  /** The last step is the result of the call, and its message tells the model this text. */
  predicate LastSays(run: Run, call: string, text: string) {
    && run.steps != []
    && var s := run.steps[|run.steps| - 1];
       && IsToolStep(s) && s.message.Some? && s.message.value.role == ToolRole
       && s.message.value.callId == Some(call) && s.message.value.text == text && IsActive(s.message.value)
  }

  lemma RecordedIsTold(d: Durable, live: Live, e: Event, id: nat, rest: seq<ToolCall>, left: int, call: string, text: string)
    requires d.snap.status != Canceled && e.kind in {ToolCompleted, ToolFailed} && e.call.Some?
    requires e.message == Some(ToolMessage(call, text))
    ensures var seg := RecordTool(d, live, e, id, rest, left);
            && seg.writes != [] && seg.writes[0] == Append(Stamp(e, id, |d.journal| + 1))
            && (forall w :: w in seg.writes ==> w.Append? || w.Save?)
            && seg.next.Some? && LastSays(seg.next.value.run, call, text)
  {
    hide Range;
  }

  lemma ServedIsTold(d: Durable, live: Live, id: nat, result: ToolResult)
    requires live.pc.Executing? && d.snap.status != Canceled
    ensures var e := ResultEvent(live.pc.call, result);
            var seg := RecordTool(d, live, e, id, live.pc.rest, live.pc.left);
            && seg.writes != [] && seg.writes[0] == Append(Stamp(e, id, |d.journal| + 1))
            && (forall w :: w in seg.writes ==> w.Append? || w.Save?)
            && seg.next.Some? && LastSays(seg.next.value.run, result.id, result.text)
  {
    hide RecordTool;
    RecordedIsTold(d, live, ResultEvent(live.pc.call, result), id, live.pc.rest, live.pc.left, result.id, result.text);
  }

  /** What the ledger serves is told without calling the tool: the result or the error text it holds. */
  lemma ServedOutcomeIsTold(d: Durable, live: Live, id: nat, runId: string, tool: Option<ReplayPolicy>)
    requires live.pc.Executing? && live.pc.call.name.Some? && d.snap.status != Canceled
    requires var plan := PlanCall(d.ledger, runId, Round(live.run.steps), live.pc.call.id, tool); plan.Serve? || plan.ServeError?
    ensures var plan := PlanCall(d.ledger, runId, Round(live.run.steps), live.pc.call.id, tool);
            var seg := ActSegment(d, live, id, runId, Execute(tool));
            && (forall w :: w in seg.writes ==> w.Append? || w.Save?)
            && seg.next.Some?
            && (if plan.Serve? then LastSays(seg.next.value.run, plan.result.id, plan.result.text)
                else LastSays(seg.next.value.run, live.pc.call.id, plan.error))
  {
    hide PlanCall, Round, RecordTool, OpeningSegment, CallSegment, ClosingSegment, LastSays;
    var Executing(call, rest, left) := live.pc;
    match PlanCall(d.ledger, runId, Round(live.run.steps), call.id, tool)
    case Serve(r) => RecordedIsTold(d, live, ResultEvent(call, r), id, rest, left, r.id, r.text);
    case ServeError(x) => RecordedIsTold(d, live, ErrorEvent(call, x), id, rest, left, call.id, x);
    case _ =>
  }

  /** So is the reason of a rejected call, whose tool is not called either. */
  lemma RejectionIsTold(d: Durable, live: Live, id: nat, runId: string, call: ToolCall, error: string)
    requires CanCall(live.pc, call) && d.snap.status != Canceled
    ensures var seg := ActSegment(d, live, id, runId, RejectTool(call, error));
            && (forall w :: w in seg.writes ==> w.Append? || w.Save?)
            && seg.next.Some? && LastSays(seg.next.value.run, call.id, error)
  {
    hide RecordTool, OpeningSegment, ToolSegment, ClosingSegment, LastSays, Enter;
    RecordedIsTold(d, live.(run := Enter(live.run, live.pc.left)), ErrorEvent(call, error), id, live.pc.calls[1..], live.pc.left,
                   call.id, error);
  }

  /** A tool only runs for a call that was taken up from the front of its round, and its start, with
      the call as it was approved, is journalled before. */
  lemma StartIsJournalled(d: Durable, live: Live, id: nat, runId: string, call: ToolCall)
    requires CanCall(live.pc, call)
    ensures var seg := ActSegment(d, live, id, runId, StartTool(call));
            if d.snap.status == Canceled then seg == Segment([], None)
            else
              && seg.writes != [] && seg.writes[0].Append? && (forall w :: w in seg.writes ==> w.Append? || w.Save?)
              && seg.writes[0].event == Stamp(BareEvent(ToolStarted).(call := Some(call)), id, |d.journal| + 1)
              && seg.next.Some? && seg.next.value.pc == Executing(call, live.pc.calls[1..], live.pc.left)
              && |seg.next.value.run.steps| == |live.run.steps| && seg.next.value.run.remaining == live.pc.left
  {
    hide OpeningSegment, ToolSegment, ClosingSegment, Range;
  }

  /** The outcome of a tool that runs reaches the model the same way: the text it returned, or the
      text of its error. */
  lemma OutcomeIsTold(d: Durable, live: Live, id: nat, runId: string, outcome: Outcome)
    requires live.pc.InTool? && d.snap.status != Canceled
    requires outcome.Returned? ==> outcome.result.id == live.pc.call.id
    ensures var action := match outcome case Returned(r) => ToolReturns(r) case Raised(x) => ToolRaises(x);
            var seg := ActSegment(d, live, id, runId, action);
            && seg.next.Some?
            && LastSays(seg.next.value.run, live.pc.call.id, if outcome.Returned? then outcome.result.text else outcome.error)
            && (live.pc.attempt.Some? ==> seg.writes != [] && seg.writes[0] == Put(Concluded(live.pc.attempt.value, outcome)))
  {
    hide RecordTool, OpeningSegment, CallSegment, ClosingSegment, LastSays;
    var InTool(call, rest, left, _) := live.pc;
    match outcome
    case Returned(r) => RecordedIsTold(d, live, ResultEvent(call, r), id, rest, left, call.id, r.text);
    case Raised(x) => RecordedIsTold(d, live, ErrorEvent(call, x), id, rest, left, call.id, x);
  }

  // -------------------------------------------------------- pauses after a resolution

  /** After a resolution, a pause is resumable exactly when no call of the run waits for an operator
      any more. Then the open calls of the round are ready, unless one of them was given up for a
      retry of the whole run, or never reached recovery and still counts as started. */
  lemma ResolvedIsReady(ledger: seq<Attempt>, round: nat, calls: seq<ToolCall>)
    requires AllResolved(ledger)
    requires forall c :: c in calls ==> !HasUnscoped(ledger, c.id) && Latest(ledger, round, c.id) == LatestOfRun(ledger, c.id)
    ensures ReplayReady(ledger, round, calls) <==> forall c :: c in calls ==> !IsStuck(LatestOfRun(ledger, c.id))
  {
    hide HasUnscoped, Latest, LatestOfRun;
    forall c | c in calls ensures Resumable(ledger, round, c.id) <==> !IsStuck(LatestOfRun(ledger, c.id)) {
      var latest := LatestOfRun(ledger, c.id);
      if latest.Some? {
        LatestIsThere(ledger, c.id);
        assert !NeedsOperator(latest.value);
        match latest.value.status
        case Scheduled => case Started => case Completed => case AttemptFailed => case Unknown =>
      }
    }
  }

  lemma LatestIsThere(ledger: seq<Attempt>, id: string)
    requires LatestOfRun(ledger, id).Some?
    ensures LatestOfRun(ledger, id).value in ledger && LatestOfRun(ledger, id).value.id == id
  {
  }

  /** An open attempt that no operator is asked about: given up, or still started. */
  predicate IsStuck(latest: Option<Attempt>) {
    latest.Some? && IsOpen(latest.value) && !NeedsOperator(latest.value)
  }

  /** Such a call: after the run was given up for a retry, deciding about another attempt makes its
      pause resumable, although going on is refused at the one given up. */
  lemma GivenUpIsRefused(d: Durable, given: Attempt, other: Attempt, round: nat, runId: string, tool: Option<ReplayPolicy>)
    requires d.ledger == [given, other] && d.snap.status == Paused && d.snap.pause.Some? && given.id != other.id
    requires given.round == Some(round) && other.round == Some(round)
    requires given.status == Unknown && given.policy == NonReplayable && given.resolution == Some(AbandonAndRetryRun)
    requires other.status == Unknown && other.policy == Idempotent && other.resolution == None
    ensures var after := ApplyAll(d, ResolveWrites(d, 0, other.id, other.number, None));
            && after.snap.pause.Some? && after.snap.pause.value.resumable
            && PlanCall(after.ledger, runId, round, given.id, tool) == Refuse(UnknownOutcome)
  {
    hide Latest, LatestOfRun, HasUnscoped, FindAttempt, PutAttempt, Passed, NextNumber;
    var done := other.(resolution := Some(Retry));
    var ledger := [given, done];
    FoundSecond(given, other, done);
    TwoRows(given, done, round);
    assert AllResolved(ledger);
    var ws := ResolveWrites(d, 0, other.id, other.number, None);
    assert ws == [ws[0], ws[1], ws[2]];
    ApplyThree(d, ws[0], ws[1], ws[2]);
    PlanMeans(ledger, runId, round, given.id, tool);
  }

  lemma FoundSecond(a: Attempt, b: Attempt, done: Attempt)
    requires a.id != b.id && done.id == b.id && done.number == b.number
    ensures FindAttempt([a, b], b.id, b.number) == Some(b) && PutAttempt([a, b], done) == [a, done]
  {
    assert [a, b][1..] == [b];
    assert FindAttempt([b], b.id, b.number) == Some(b);
  }

  lemma TwoRows(a: Attempt, b: Attempt, round: nat)
    requires a.id != b.id && a.round == Some(round) && b.round == Some(round)
    ensures LatestOfRun([a, b], a.id) == Some(a) && LatestOfRun([a, b], b.id) == Some(b)
    ensures Latest([a, b], round, a.id) == Some(a) && !HasUnscoped([a, b], a.id)
  {
    assert [a, b][..1] == [a] && [a][..0] == [];
    assert LatestOfRun([a], a.id) == Some(a) && LatestOfRun([a], b.id) == None;
    assert Latest([a], round, a.id) == Some(a);
  }

  // ------------------------------------------------------------------- giving up

  /** Rows given up for a retry of the whole run: the latest of their call, still waiting. */
  predicate IsGivenUp(ledger: seq<Attempt>, a: Attempt) {
    LatestOfRun(ledger, a.id) == Some(a) && NeedsOperator(a)
  }

  function GivenUp(ledger: seq<Attempt>, a: Attempt): Attempt {
    if IsGivenUp(ledger, a) then a.(resolution := Some(AbandonAndRetryRun)) else a
  }

  /** Giving up touches exactly the attempts that wait for the operator, and leaves none waiting. */
  lemma AbandonSettles(d: Durable)
    requires UniqueRows(d.ledger)
    ensures var after := ApplyAll(d, AbandonPuts(d.ledger, d.ledger));
            && after.snap == d.snap && after.journal == d.journal && |after.ledger| == |d.ledger|
            && (forall i :: 0 <= i < |d.ledger| ==> after.ledger[i] == GivenUp(d.ledger, d.ledger[i]))
            && AllResolved(after.ledger)
  {
    hide LatestOfRun, UniqueRows, AllResolved, GivenUp;
    var after := ApplyAll(d, AbandonPuts(d.ledger, d.ledger)).ledger;
    assert d.ledger[0..] == d.ledger;
    AbandonFrom(d, d.ledger, 0);
    AbandonPutsTouch(d.ledger, d.ledger);
    LedgerOnlyKeeps(d, AbandonPuts(d.ledger, d.ledger));
    AllGivenUp(d.ledger, after);
  }

  /** Only a paused run that cannot be resumed is given up, and all that changes besides is that its
      journal says so. */
  lemma AbandonIsNoted(d: Durable, id: nat)
    requires UniqueRows(d.ledger)
    ensures var after := ApplyAll(d, AbandonWrites(d, id));
            if d.snap.status == Paused && !CanResume(d.snap) then
              && AllResolved(after.ledger) && after.journal == d.journal + [Stamp(BareEvent(ExecutionResolved), id, |d.journal| + 1)]
              && after.snap.status == Paused && after.snap.pause == d.snap.pause && after.snap.steps == d.snap.steps
              && after.snap.applied == |after.journal|
            else after == d
  {
    hide AbandonPuts, AllResolved, UniqueRows, CanResume, Range;
    var first := AbandonPuts(d.ledger, d.ledger);
    AbandonSettles(d);
    var mid := ApplyAll(d, first);
    var e := Stamp(BareEvent(ExecutionResolved), id, |d.journal| + 1);
    var last := [Append(e), Save(Noted(d.snap, e), Passed(d))];
    ApplyConcat(d, first, last);
    ApplyTwo(mid, last[0], last[1]);
  }

  lemma {:induction false} LedgerOnlyKeeps(d: Durable, ws: seq<Write>)
    requires forall w :: w in ws ==> w.Create? || w.Put? || w.Resolve? || w.Send?
    ensures ApplyAll(d, ws).snap == d.snap && ApplyAll(d, ws).journal == d.journal
    decreases |ws|
  {
    if ws != [] {
      assert ws[0] in ws;
      LedgerOnlyKeeps(Apply(d, ws[0]), ws[1..]);
    }
  }

  lemma {:induction false} AbandonFrom(d: Durable, ledger: seq<Attempt>, k: nat)
    requires UniqueRows(ledger) && k <= |ledger| == |d.ledger|
    requires forall i :: 0 <= i < |ledger| ==> d.ledger[i] == if i < k then GivenUp(ledger, ledger[i]) else ledger[i]
    ensures var after := ApplyAll(d, AbandonPuts(ledger, ledger[k..])).ledger;
            |after| == |ledger| && forall i :: 0 <= i < |ledger| ==> after[i] == GivenUp(ledger, ledger[i])
    decreases |ledger| - k
  {
    hide LatestOfRun, NeedsOperator;
    if k < |ledger| {
      assert ledger[k..][1..] == ledger[k + 1..] && ledger[k..][0] == ledger[k];
      var rest := AbandonPuts(ledger, ledger[k + 1..]);
      if IsGivenUp(ledger, ledger[k]) {
        var w := Put(GivenUp(ledger, ledger[k]));
        assert ([w] + rest)[1..] == rest;
        OneGivenUp(d, ledger, k);
        AbandonFrom(Apply(d, w), ledger, k + 1);
      } else {
        AbandonFrom(d, ledger, k + 1);
      }
    } else {
      assert ledger[k..] == [];
    }
  }

  lemma OneGivenUp(d: Durable, ledger: seq<Attempt>, k: nat)
    requires UniqueRows(ledger) && k < |ledger| == |d.ledger|
    requires forall i :: 0 <= i < |ledger| ==> d.ledger[i] == if i < k then GivenUp(ledger, ledger[i]) else ledger[i]
    ensures var after := PutAttempt(d.ledger, GivenUp(ledger, ledger[k]));
            forall i :: 0 <= i < |ledger| ==> after[i] == if i <= k then GivenUp(ledger, ledger[i]) else ledger[i]
  {
    hide LatestOfRun, NeedsOperator;
  }

  /** Resolving rows does not change which one is the latest of its call. */
  lemma {:induction false} LatestStaysAt(a: seq<Attempt>, b: seq<Attempt>, id: string) returns (i: nat)
    requires |a| == |b| && forall i :: 0 <= i < |a| ==> a[i].id == b[i].id && a[i].number == b[i].number
    ensures LatestOfRun(a, id).Some? <==> LatestOfRun(b, id).Some?
    ensures LatestOfRun(a, id).Some? ==> i < |a| && LatestOfRun(a, id) == Some(a[i]) && LatestOfRun(b, id) == Some(b[i])
    decreases |a|
  {
    hide LatestOfRun;
    NoLatest(id);
    if a == [] {
      i := 0;
    } else {
      var n := |a| - 1;
      i := LatestStaysAt(a[..n], b[..n], id);
      LatestLast(a, id);
      LatestLast(b, id);
      if LatestOfRun(a, id) == Some(a[n]) && LatestOfRun(b, id) == Some(b[n]) { i := n; }
    }
  }

  lemma NoLatest(id: string)
    ensures LatestOfRun([], id) == None
  {
  }

  lemma LatestLast(ledger: seq<Attempt>, id: string)
    requires ledger != []
    ensures var before, a := LatestOfRun(ledger[..|ledger| - 1], id), ledger[|ledger| - 1];
            LatestOfRun(ledger, id)
            == if a.id == id && (before == None || a.number > before.value.number) then Some(a) else before
  {
  }

  lemma AllGivenUp(ledger: seq<Attempt>, after: seq<Attempt>)
    requires |after| == |ledger| && forall i :: 0 <= i < |ledger| ==> after[i] == GivenUp(ledger, ledger[i])
    ensures AllResolved(after)
  {
    hide LatestOfRun;
    forall a | a in after ensures LatestOfRun(after, a.id).Some? && !NeedsOperator(LatestOfRun(after, a.id).value) {
      var i := LatestStaysAt(ledger, after, a.id);
      SomeLatest(after, a);
      LatestIsThere(ledger, a.id);
    }
  }

  lemma SomeLatest(ledger: seq<Attempt>, a: Attempt)
    requires a in ledger
    ensures LatestOfRun(ledger, a.id).Some?
  {
  }

  // --------------------------------------------------------- attempts cut short

  /** After recovery has gone over the ledger, no attempt counts as started any more: those that did
      are of unknown outcome, and every other row is as it was. */
  lemma StartedBecomeUnknown(d: Durable)
    requires UniqueRows(d.ledger)
    ensures var after := ApplyAll(d, UnknownPuts(d.ledger));
            && after.snap == d.snap && after.journal == d.journal && |after.ledger| == |d.ledger|
            && forall i :: 0 <= i < |d.ledger| ==>
                 after.ledger[i] == if d.ledger[i].status == Started then d.ledger[i].(status := Unknown) else d.ledger[i]
  {
    hide UniqueRows;
    assert d.ledger[0..] == d.ledger;
    UnknownFrom(d, d.ledger, 0);
    UnknownPutsTouch(d.ledger);
    LedgerOnlyKeeps(d, UnknownPuts(d.ledger));
  }

  lemma {:induction false} UnknownFrom(d: Durable, ledger: seq<Attempt>, k: nat)
    requires UniqueRows(ledger) && k <= |ledger| == |d.ledger|
    requires forall i :: 0 <= i < |ledger| ==>
               d.ledger[i] == if i < k && ledger[i].status == Started then ledger[i].(status := Unknown) else ledger[i]
    ensures var after := ApplyAll(d, UnknownPuts(ledger[k..])).ledger;
            |after| == |ledger| && forall i :: 0 <= i < |ledger| ==>
              after[i] == if ledger[i].status == Started then ledger[i].(status := Unknown) else ledger[i]
    decreases |ledger| - k
  {
    if k < |ledger| {
      assert ledger[k..][1..] == ledger[k + 1..] && ledger[k..][0] == ledger[k];
      var rest := UnknownPuts(ledger[k + 1..]);
      if ledger[k].status == Started {
        var w := Put(ledger[k].(status := Unknown));
        assert ([w] + rest)[1..] == rest;
        UnknownFrom(Apply(d, w), ledger, k + 1);
      } else {
        UnknownFrom(d, ledger, k + 1);
      }
    } else {
      assert ledger[k..] == [];
    }
  }
}
