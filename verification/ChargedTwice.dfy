/** A run in which one round costs two: it is given up when it ends, and again when its
    interrupted follow-up is resumed. */
module ChargedTwice {
  import opened Wrappers
  import opened Content
  import opened Runs
  import opened Recovery
  import opened Machine
  import opened Agreement
  import opened Replaying
  import opened Exclusive
  import opened Protocol
  import opened Untorn
  import opened TornRuns

  /** One copy, just stored, at `pc`. */
  ghost predicate At(w: World, pc: Pc) {
    && |w.copies| == 1 && w.copies[0].pc == pc && w.copies[0].run == w.d.snap && w.d.ledger == []
    && w.d.snap.status == Running && !w.d.snap.pauseRequest && w.d.snap.applied == |w.d.journal|
  }

  predicate StillOpen(steps: seq<Step>) {
    forall s :: s in steps ==> s.kind != StopStep && s.kind != MemoryStep
  }

  lemma PersistOnce(w: World, runId: string, action: Action, pc: Pc, next: Pc, run: Run, e: Event)
    requires At(w, pc) && run.status == Running && !run.pauseRequest
    requires ActSegment(w.d, w.copies[0], w.nextId, runId, action) == Persist(w.d, w.copies[0], run, e, w.nextId, next)
    ensures var n := Next(w, runId, Whole(Act(0, action)));
            var stamped := Stamp(e, w.nextId, |w.d.journal| + 1);
            && At(n, next) && n.d.snap == Noted(run, stamped)
            && n.d.journal == w.d.journal + [stamped] && n.d.earlier == w.d.earlier + [w.d.snap]
  {
    hide Jumped, ActSegment;
    var stamped, jumped := Stamp(e, w.nextId, |w.d.journal| + 1), Jumped(w.d, w.copies[0]);
    var live := Live(Noted(run, stamped), next, true, jumped);
    assert Persist(w.d, w.copies[0], run, e, w.nextId, next) == Segment([Append(stamped), Save(live.run, jumped)], Some(live));
    ApplyTwo(w.d, Append(stamped), Save(live.run, jumped));
    assert w.copies[0 := live] == [live];
  }

  lemma Replied(w: World, runId: string, response: Response, left: int)
    requires At(w, Chatting(left))
    ensures var n := Next(w, runId, Whole(Act(0, Respond(response))));
            && At(n, Calling(response.message.calls, left))
            && n.d.snap.response == Some(response) && n.d.snap.request == w.d.snap.request
            && n.d.snap.remaining == w.d.snap.remaining
            && (StillOpen(w.d.snap.steps) ==> StillOpen(n.d.snap.steps))
  {
    hide Persist;
    var c := w.copies[0];
    PersistOnce(w, runId, Respond(response), c.pc, Calling(response.message.calls, left),
                Responded(c.run, response, w.nextId), ChatEvent(c.run, response));
  }

  /** The only call of the round is refused, and the refusal recorded as its result. */
  lemma Rejected(w: World, runId: string, call: ToolCall, left: int, error: string)
    requires At(w, Calling([call], left)) && left > 0 && w.d.snap.request.recoverToolErrors
    ensures var n := Next(w, runId, Whole(Act(0, RejectTool(call, error))));
            && At(n, RoundDone(left)) && n.d.snap.request == w.d.snap.request && n.d.snap.remaining == left
            && n.d.snap.response == w.d.snap.response
            && n.d.snap.steps != [] && var last := n.d.snap.steps[|n.d.snap.steps| - 1]; IsToolStep(last) && last.call == Some(call)
    ensures StillOpen(w.d.snap.steps) ==> StillOpen(Next(w, runId, Whole(Act(0, RejectTool(call, error)))).d.snap.steps)
  {
    hide Persist;
    var c, e := w.copies[0], ErrorEvent(call, error);
    var run := Enter(c.run, left);
    run := run.(steps := run.steps + [ProgressOf(e).value.(eventId := Some(w.nextId))]);
    var entered := c.(run := Enter(c.run, left));
    assert [call][1..] == [];
    assert ActSegment(w.d, c, w.nextId, runId, RejectTool(call, error))
           == Persist(w.d, entered, run, e, w.nextId, RoundDone(left));
    PersistSameFor(w.d, c, entered, run, e, w.nextId, RoundDone(left));
    PersistOnce(w, runId, RejectTool(call, error), c.pc, RoundDone(left), run, e);
  }

  /** Persisting looks at the copy's watermark and at what it passed over only. */
  lemma PersistSameFor(d: Durable, a: Live, b: Live, run: Run, e: Event, id: nat, pc: Pc)
    requires a.run.applied == b.run.applied && a.jumped == b.jumped
    ensures Persist(d, a, run, e, id, pc) == Persist(d, b, run, e, id, pc)
  {
  }

  lemma GivenUp(w: World, runId: string, left: int)
    requires At(w, RoundDone(left))
    ensures var n := Next(w, runId, Whole(Act(0, EndRound)));
            && n.d == w.d && |n.copies| == 1 && n.copies[0].pc == Chatting(left - 1)
            && n.copies[0].run == w.d.snap.(remaining := left - 1)
  {
    hide Progress, CompletedIds;
    var next := Live(w.d.snap.(remaining := left - 1), Chatting(left - 1), false, w.copies[0].jumped);
    assert ActSegment(w.d, w.copies[0], w.nextId, runId, EndRound) == Segment([], Some(next));
    assert w.copies[0 := next] == [next];
    assert ApplyAll(w.d, []) == w.d;
  }

  /** Recovery of a run whose round is complete, with nothing behind its snapshot. */
  lemma Recovered(w: World, runId: string, request: Request)
    requires WorldInStep(w, request) && w.copies == [] && w.d.ledger == []
    requires w.d.snap.status == Running && w.d.snap.applied == |w.d.journal| && RoundComplete(w.d.snap)
    requires StillOpen(w.d.snap.steps)
    ensures var n := Next(w, runId, Whole(Suspend(Timeout, false)));
            && n.copies == [] && n.d.snap.status == Paused && n.d.snap.pause.Some? && CanResume(n.d.snap)
            && n.d.snap.steps == w.d.snap.steps && n.d.snap.response == w.d.snap.response
            && n.d.snap.remaining == w.d.snap.remaining && n.d.snap.request == w.d.snap.request
            && n.d.snap.applied == |n.d.journal|
            && n.d.earlier == w.d.earlier + [w.d.snap]
            && |n.d.journal| == |w.d.journal| + 1 && n.d.journal[..|w.d.journal|] == w.d.journal
            && n.d.journal[|w.d.journal|].kind == RunPaused
  {
    hide Restore, DurableOk, CompletedIds, IncompleteCalls;
    RestoresItself(w.d, request);
    var d := w.d;
    assert UnknownPuts(d.ledger) == [] && ApplyAll(d, []) == d;
    assert Inspect(d.snap, d.journal, Some(d.ledger)) == (d.snap, true, ToolRoundCompleted);
    var e := Stamp(BareEvent(RunPaused), w.nextId, |d.journal| + 1);
    var paused := Noted(d.snap, e).(status := Paused, stop := None, pause := Some(Pause(Timeout, ToolRoundCompleted, true)));
    var writes := [Append(e), Save(paused, Range(|d.journal|, |d.journal|))];
    assert [] + writes == writes && SuspendWrites(d, w.nextId, Timeout) == writes;
    ApplyTwo(d, writes[0], writes[1]);
  }

  lemma RestoresItself(d: Durable, request: Request)
    requires DurableOk(d, request) && d.snap.applied == |d.journal|
    ensures Restore(d.snap, d.journal) == (d.snap, None)
  {
    hide Restore;
    SavedReplays(d, d.snap, request);
    JournalTail(d.snap, d.journal, request.maxToolRounds);
    assert d.journal[|d.journal|..] == [];
  }

  lemma AnsweredIsComplete(run: Run, response: Response, call: ToolCall)
    requires run.response == Some(response) && response.message.calls == [call]
    requires run.steps != [] && var last := run.steps[|run.steps| - 1]; IsToolStep(last) && last.call == Some(call)
    ensures RoundComplete(run)
  {
    assert call.id in CompletedIds(run.steps);
    assert [call][1..] == [];
  }

  lemma Reopened(w: World, runId: string)
    requires |w.copies| == 1 && w.copies[0].pc == Loaded
    requires var run := w.copies[0].run; run.status == Paused && CanResume(run) && run.pause.Some? && RoundComplete(run) && run.remaining > 0
    ensures var n, run := Next(w, runId, Whole(Act(0, Begin))), w.copies[0].run;
            && n.d == w.d && |n.copies| == 1 && n.copies[0].pc == Chatting(run.remaining - 1)
            && n.copies[0].run.remaining == run.remaining - 1
            && n.copies[0].run.applied == run.applied && n.copies[0].run.steps == run.steps && n.copies[0].run.response == run.response
  {
    hide CompletedIds, IncompleteCalls;
    assert ApplyAll(w.d, []) == w.d;
  }

  /** The run so far, and that no state of it is torn. */
  ghost predicate Fine(ws: seq<World>, request: Request, runId: string, steps: seq<Label>) {
    GoodRun(ws, request, runId, steps) && forall k {:trigger ws[k]} :: 0 <= k < |ws| ==> !Torn(ws[k].d)
  }

  lemma GoOn(ws: seq<World>, request: Request, runId: string, steps: seq<Label>, step: Label)
    returns (more: seq<World>, all: seq<Label>)
    requires Fine(ws, request, runId, steps) && Alone(Last(ws), step.op) && Sane(Last(ws), step.op)
    requires !Torn(Next(Last(ws), runId, step).d)
    ensures Fine(more, request, runId, all) && Last(more) == Next(Last(ws), runId, step)
  {
    hide Next, Alone, Sane, Torn, GoodRun;
    more, all := Extend(ws, request, runId, steps, step);
    forall k {:trigger more[k]} | 0 <= k < |more| ensures !Torn(more[k].d) {
      if k < |ws| { assert more[k] == ws[k]; }
    }
  }

  lemma RunningIsUntorn(d: Durable)
    requires d.snap.status != Paused || d.snap.applied == |d.journal|
    ensures !Torn(d)
  {
  }

  /** The first round, up to its only result. */
  lemma FirstRound(request: Request, runId: string, response: Response, call: ToolCall, error: string)
    returns (ws: seq<World>, steps: seq<Label>)
    requires request.maxToolRounds >= 2 && request.recoverToolErrors
    requires GoodReply(response.message) && response.message.calls == [call]
    ensures Fine(ws, request, runId, steps) && At(Last(ws), RoundDone(request.maxToolRounds))
    ensures var snap := Last(ws).d.snap;
            snap.request == request && snap.remaining == request.maxToolRounds && RoundComplete(snap) && StillOpen(snap.steps)
  {
    hide Next, StartWorld, Sane, RoundComplete, GoodReply, Torn;
    var max := request.maxToolRounds;
    ws, steps := [StartWorld(request)], [];
    FreshStart(request, runId);
    SaneOp(Last(ws), Act(0, StartRun));
    RunningIsUntorn(Next(Last(ws), runId, Whole(Act(0, StartRun))).d);
    ws, steps := GoOn(ws, request, runId, steps, Whole(Act(0, StartRun)));
    SaneReply(Last(ws), response);
    Replied(Last(ws), runId, response, max);
    RunningIsUntorn(Next(Last(ws), runId, Whole(Act(0, Respond(response)))).d);
    ws, steps := GoOn(ws, request, runId, steps, Whole(Act(0, Respond(response))));
    SaneOp(Last(ws), Act(0, RejectTool(call, error)));
    Rejected(Last(ws), runId, call, max, error);
    RunningIsUntorn(Next(Last(ws), runId, Whole(Act(0, RejectTool(call, error)))).d);
    ws, steps := GoOn(ws, request, runId, steps, Whole(Act(0, RejectTool(call, error))));
    AnsweredIsComplete(Last(ws).d.snap, response, call);
  }

  lemma SaneReply(w: World, response: Response)
    requires GoodReply(response.message)
    ensures Sane(w, Act(0, Respond(response)))
  {
  }

  lemma FreshStart(request: Request, runId: string)
    ensures var w := Next(StartWorld(request), runId, Whole(Act(0, StartRun)));
            && At(w, Chatting(request.maxToolRounds)) && w.d.snap.request == request && StillOpen(w.d.snap.steps)
            && w.d.snap.remaining == request.maxToolRounds
    ensures Fine([StartWorld(request)], request, runId, [])
  {
    hide Next;
    StartNext(request, runId);
  }

  /** An interrupted follow-up is charged twice. The round is given up when it ends, the copy is
      interrupted while it waits for the model, recovery pauses the run, and resuming gives the
      round up again: two rounds are gone for one, and the snapshot stored with the result of the
      round, when restored, still has them both. */
  lemma InterruptedFollowUpChargesTwice(request: Request, runId: string, response: Response, call: ToolCall, error: string)
    returns (ws: seq<World>, steps: seq<Label>, s: Run)
    requires request.maxToolRounds >= 2 && request.recoverToolErrors
    requires GoodReply(response.message) && response.message.calls == [call]
    ensures UntornRun(ws, request, runId, steps) && SaneRun(ws, steps) && ws != []
    ensures var w, max := Last(ws), request.maxToolRounds;
            && |w.copies| == 1 && var live := w.copies[0];
            && Current(w, live) && RoundComplete(live.run) && live.pc == Chatting(max - 2) && live.run.remaining == max - 2
            && Saved(w.d, s) && Restore(s, w.d.journal).0.remaining == max
  {
    hide Next, Sane, RoundComplete, GoodReply, Torn, Restore, IsRun, SaneRun, WorldInStep;
    var max := request.maxToolRounds;
    ws, steps := FirstRound(request, runId, response, call, error);
    s := Last(ws).d.snap;
    SaneOp(Last(ws), Act(0, EndRound));
    GivenUp(Last(ws), runId, max);
    RunningIsUntorn(Next(Last(ws), runId, Whole(Act(0, EndRound))).d);
    ws, steps := GoOn(ws, request, runId, steps, Whole(Act(0, EndRound)));
    SaneOp(Last(ws), Act(0, Interrupt));
    InterruptNext(Last(ws), runId);
    StoredBefore(Last(ws), runId);
    RunningIsUntorn(Next(Last(ws), runId, Whole(Act(0, Interrupt))).d);
    ws, steps := GoOn(ws, request, runId, steps, Whole(Act(0, Interrupt)));
    StaysComplete(s, Last(ws).d.snap);
    RunsInStep(ws, request, runId, steps, |ws| - 1);
    SaneOp(Last(ws), Suspend(Timeout, false));
    Recovered(Last(ws), runId, request);
    var before := Last(ws).d;
    RunningIsUntorn(Next(Last(ws), runId, Whole(Suspend(Timeout, false))).d);
    ws, steps := GoOn(ws, request, runId, steps, Whole(Suspend(Timeout, false)));
    StaysComplete(s, Last(ws).d.snap);
    LoadNext(Last(ws), runId);
    SaneOp(Last(ws), Load);
    ws, steps := GoOn(ws, request, runId, steps, Whole(Load));
    SaneOp(Last(ws), Act(0, Begin));
    Reopened(Last(ws), runId);
    ws, steps := GoOn(ws, request, runId, steps, Whole(Act(0, Begin)));
    StaysComplete(s, Last(ws).copies[0].run);
    RunsInStep(ws, request, runId, steps, |ws| - 1);
    RestoresAllRounds(Last(ws), s, request);
  }

  lemma StoredBefore(w: World, runId: string)
    requires |w.copies| == 1 && w.d.snap.status == Running
    ensures Next(w, runId, Whole(Act(0, Interrupt))).d.earlier == w.d.earlier + [w.d.snap]
  {
    var live := w.copies[0];
    assert ActSegment(w.d, live, w.nextId, runId, Interrupt) == Segment([Save(live.run, live.jumped)], None);
    ApplyOne(w.d, Save(live.run, live.jumped));
  }

  lemma StaysComplete(a: Run, b: Run)
    requires RoundComplete(a) && b.steps == a.steps && b.response == a.response
    ensures RoundComplete(b)
  {
  }

  /** Behind the snapshot stands the pause only. */
  lemma RestoresAllRounds(w: World, s: Run, request: Request)
    requires WorldInStep(w, request) && Saved(w.d, s)
    requires |w.d.journal| == s.applied + 1 && w.d.journal[s.applied].kind == RunPaused
    ensures Restore(s, w.d.journal).0.remaining == s.remaining
  {
    hide Restore, BuiltTrace;
    SavedReplays(w.d, s, request);
    RestoreBuilds(s, w.d.journal, request.maxToolRounds);
    assert RemainingFrom(w.d.journal, s.applied, s.applied, s.remaining) == s.remaining;
  }
}
