/** Every operation of an execution keeps the shape of its run. */
module Budgets {
  import opened Wrappers
  import opened Content
  import opened Runs
  import opened Recovery
  import opened Ledger
  import opened Machine
  import opened Agreement
  import opened Replaying
  import opened Exclusive
  import opened Protocol
  import opened Untorn

  // ------------------------------------------------------ steps of the loop, in memory

  /** A step of the loop that gives up rounds only once the current round is complete. */
  ghost predicate Local(strict: bool, a: Run, b: Run, pc: Pc, request: Request) {
    && Reshaped(a, b) && RunShape(strict, b, request) && PcShape(strict, b, pc) && InLoop(pc)
    && (strict && !Complete(Progress(b.steps)) ==> b.remaining == a.remaining)
  }

  lemma LocalCharge(strict: bool, journal: seq<Event>, before: Run, a: Run, b: Run, max: nat)
    requires Charge(strict, journal, before, a, max) && Reshaped(a, b)
    requires strict && !Complete(Progress(b.steps)) ==> b.remaining == a.remaining
    ensures Charge(strict, journal, before, b, max)
  {
    hide Complete;
  }

  lemma LocalAbreast(strict: bool, d: Durable, a: Live, b: Live, request: Request)
    requires Abreast(strict, d, a, request) && Local(strict, a.run, b.run, b.pc, request) && b.jumped == a.jumped
    ensures Abreast(strict, d, b, request)
  {
    hide DurableOk, DShape, RunShape, PcShape, Charge, Complete, Progress;
    LocalCharge(strict, d.journal, d.snap, a.run, b.run, request.maxToolRounds);
    ReshapedFaithful(d, a, b, request);
  }

  lemma ReshapedFaithful(d: Durable, a: Live, b: Live, request: Request)
    requires InStep(d, a, request) && Reshaped(a.run, b.run) && b.jumped == a.jumped
    ensures InStep(d, b, request)
  {
  }

  /** Where an execution may go on: in the loop, or loaded from a paused run. */
  predicate MayRun(c: Live) {
    InLoop(c.pc) || (c.pc.Loaded? && c.run.status == Paused)
  }

  lemma SilentShaped(strict: bool, d: Durable, a: Live, b: Live, request: Request)
    requires DurableOk(d, request) && LiveOk(d, a, request) && DShape(strict, d, request) && CopyShape(strict, d, a, request)
    requires MayRun(a) && Local(strict, a.run, b.run, b.pc, request) && b.jumped == a.jumped
    ensures ShapedSegment(strict, d, request, Segment([], Some(b)))
  {
    hide DurableOk, LiveOk, DShape, Abreast, RunShape, Reshaped, Complete, Charge, RestoredShape;
    if Alive(d) {
      CopyAbreast(strict, d, a, request);
      LocalAbreast(strict, d, a, b, request);
      AbreastCopy(strict, d, b, request);
    } else {
      StoppedCopy(strict, d, b, request);
    }
  }

  lemma IdleShaped(strict: bool, d: Durable, c: Live, request: Request)
    requires CopyShape(strict, d, c, request)
    ensures ShapedSegment(strict, d, request, Segment([], Some(c)))
  {
    hide CopyShape;
  }

  /** A persisted step of a copy whose snapshot may be alive or canceled. */
  lemma StepShaped(strict: bool, d: Durable, live: Live, run: Run, e: Event, id: nat, pc: Pc, request: Request)
    requires DurableOk(d, request) && LiveOk(d, live, request) && DShape(strict, d, request) && CopyShape(strict, d, live, request)
    requires IdsBelow(d.journal, id) && InLoop(live.pc)
    requires EventOk(Stamp(e, id, 1), request.maxToolRounds) && Carries(live.run, run, Stamp(e, id, 1))
    requires RunShape(strict, run, request) && PcShape(strict, run, pc)
    ensures ShapedSegment(strict, d, request, Persist(d, live, run, e, id, pc))
  {
    hide DurableOk, LiveOk, DShape, Abreast, RunShape, Complete, Charge, RestoredShape, IdsBelow, EventOk, Carries;
    if Alive(d) {
      CopyAbreast(strict, d, live, request);
      PersistShaped(strict, d, live, run, e, id, pc, request);
    }
  }

  // -------------------------------------------------------------- saving and failing

  lemma SaveCopyShaped(strict: bool, d: Durable, c: Live, request: Request)
    requires DShape(strict, d, request) && CopyShape(strict, d, c, request) && d.snap.status != Canceled
    ensures ShapedWrite(strict, d, request, Save(c.run, c.jumped))
    ensures DShape(strict, Apply(d, Save(c.run, c.jumped)), request)
    ensures CopyShape(strict, Apply(d, Save(c.run, c.jumped)), c, request)
  {
    hide RunShape, Charge, RestoredShape, EchoOk, PcShape, Charged, TailClean;
    SaveShapes(strict, d, request, c.run, c.jumped);
    if AliveRun(c.run) { ChargeSelf(strict, d.journal, d.snap, c.run, request.maxToolRounds); }
  }

  lemma QuietAppend(strict: bool, d: Durable, e: Event, request: Request)
    requires DShape(strict, d, request) && JournalOk(d.journal, request.maxToolRounds)
    requires !IsProgressEvent(e) && e.kind != ChatCompleted
    ensures ShapedWrite(strict, d, request, Append(e))
  {
    hide RunShape, Charge, EchoOk, Shape, Charged, SkipClean, EventOk;
    AllAppend(d.journal, e);
    assert AllProgress(d.journal) + [] == AllProgress(d.journal);
    if d.snap.status == Running { RemainingAppend(d.journal, e, d.snap.applied, d.snap.remaining); }
  }

  /** A run that will not go on is saved freely. */
  lemma StoppedSave(strict: bool, d: Durable, run: Run, jumped: set<nat>, request: Request)
    requires RunShape(strict, run, request) && !AliveRun(run)
    ensures ShapedWrite(strict, d, request, Save(run, jumped))
  {
    hide RunShape;
  }

  lemma FailShaped(strict: bool, d: Durable, c: Live, id: nat, request: Request)
    requires DurableOk(d, request) && LiveOk(d, c, request) && DShape(strict, d, request) && CopyShape(strict, d, c, request)
    ensures ShapedWrites(strict, d, request, FailWrites(d, c, id))
  {
    hide DurableOk, LiveOk, DShape, CopyShape, ShapedWrite, Apply, FailedBy, Stamp, Jumped;
    if d.snap.status != Canceled {
      var save := Save(c.run, c.jumped);
      SaveCopyShaped(strict, d, c, request);
      ShapedOne(strict, d, request, save);
      if c.run.status == Running {
        FailRunningShaped(strict, d, c, id, request);
      } else if c.run.status !in {Canceled, Failed} {
        SavedSnap(d, save);
        SaveCopyShaped(strict, Apply(d, save), c, request);
        ShapedOne(strict, Apply(d, save), request, save);
        ShapedCons(strict, d, request, save, [save]);
        assert [save] + [save] == [save, save];
      }
    }
  }

  lemma SavedSnap(d: Durable, w: Write)
    requires w.Save?
    ensures Apply(d, w).snap == w.run && Apply(d, w).journal == d.journal
  {
  }

  lemma FailRunningShaped(strict: bool, d: Durable, c: Live, id: nat, request: Request)
    requires DurableOk(d, request) && DShape(strict, d, request) && CopyShape(strict, d, c, request)
    requires d.snap.status != Canceled && c.run.status == Running
    ensures ShapedWrites(strict, d, request, FailWrites(d, c, id))
  {
    hide DShape, CopyShape, ShapedWrites, ShapedWrite, RunShape, FailedBy;
    var save := Save(c.run, c.jumped);
    var e := Stamp(StopEvent(FailedText), id, |d.journal| + 1);
    var failed := FailedBy(c.run, e);
    var last := Save(failed, Jumped(d, c));
    SaveCopyShaped(strict, d, c, request);
    var d1 := Apply(d, save);
    QuietAppend(strict, d1, e, request);
    CopyRunShape(strict, d, c, request);
    FailedShape(strict, c.run, e, request);
    StoppedSave(strict, Apply(d1, Append(e)), failed, Jumped(d, c), request);
    ShapedOne(strict, Apply(d1, Append(e)), request, last);
    ShapedCons(strict, d1, request, Append(e), [last]);
    ShapedCons(strict, d, request, save, [Append(e)] + [last]);
    assert [save] + ([Append(e)] + [last]) == [save, Append(e), last];
  }

  lemma CopyRunShape(strict: bool, d: Durable, c: Live, request: Request)
    requires CopyShape(strict, d, c, request)
    ensures RunShape(strict, c.run, request)
  {
  }

  lemma FailedShape(strict: bool, run: Run, e: Event, request: Request)
    requires RunShape(strict, run, request)
    ensures RunShape(strict, FailedBy(run, e), request) && !AliveRun(FailedBy(run, e))
  {
  }

  lemma FinallyShaped(strict: bool, d: Durable, c: Live, request: Request)
    requires DShape(strict, d, request) && CopyShape(strict, d, c, request)
    ensures ShapedWrites(strict, d, request, FinallyWrites(d, c))
  {
    hide DShape, CopyShape, ShapedWrite;
    if d.snap.status != Canceled {
      SaveCopyShaped(strict, d, c, request);
      ShapedOne(strict, d, request, Save(c.run, c.jumped));
    }
  }

  // ---------------------------------------------------------------- opening a run

  lemma StartShape(strict: bool, run: Run, id: nat, request: Request)
    requires RunShape(strict, run, request) && PcShape(strict, run, Fresh)
    ensures var next := run.(steps := run.steps + [BareStep(StartStep).(eventId := Some(id))]);
            RunShape(strict, next, request) && PcShape(strict, next, Chatting(run.request.maxToolRounds))
  {
    ProgressPush(run.steps, BareStep(StartStep).(eventId := Some(id)));
  }

  lemma RespondShape(strict: bool, run: Run, left: int, response: Response, id: nat, request: Request)
    requires RunShape(strict, run, request) && PcShape(strict, run, Chatting(left))
    requires strict ==> GoodReply(response.message)
    ensures var next := Responded(run, response, id);
            RunShape(strict, next, request) && PcShape(strict, next, Calling(response.message.calls, left))
  {
    hide GoodReply, Distinct;
    var next := Responded(run, response, id);
    var s := next.steps[|run.steps|];
    ProgressPush(run.steps, s);
    PushChat(Progress(run.steps), s.(eventId := None));
  }

  lemma NoRemainingCalls(p: seq<Step>, calls: seq<ToolCall>)
    requires calls != [] && IncompleteCalls(calls, CompletedIds(p)) == []
    ensures p != [] && p[|p| - 1].kind != ChatStep
  {
    assert calls[0] in calls;
  }

  /** What the paused run was waiting for, when it resumes. */
  lemma ResumeFacts(strict: bool, run: Run, request: Request)
    requires RunShape(strict, run, request)
    ensures var p := Progress(run.steps);
            var calls, rest := CallsOf(run.response), IncompleteCalls(CallsOf(run.response), CompletedIds(run.steps));
            && (strict ==> rest == Pending(p) && (run.response == None ==> p == []))
            && (calls != [] && rest == [] ==> Round(p) <= request.maxToolRounds)
  {
    hide InProtocol, LastChat, Pending, Round, IncompleteCalls;
    var p, calls := Progress(run.steps), CallsOf(run.response);
    ProgressCounts(run.steps);
    if strict {
      PendingIs(p);
      IncompleteIsPending(p);
    }
    if calls != [] && IncompleteCalls(calls, CompletedIds(run.steps)) == [] {
      NoRemainingCalls(p, calls);
      AllProgressSteps(run.steps);
      assert p[|p| - 1] in p;
    }
  }

  lemma ResumeShape(strict: bool, live: Live, request: Request)
    requires RunShape(strict, live.run, request) && Resume(live).Some?
    ensures var next := Resume(live).value; Local(strict, live.run, next.run, next.pc, request)
  {
    hide InProtocol, CompletedIds, LastChat, Pending, Round, IncompleteCalls, Progress, StepIds;
    ResumeFacts(strict, live.run, request);
    NoChats();
  }

  lemma NoChats()
    ensures LastChat([]) == None && Pending([]) == []
  {
  }

  lemma {:induction false} AllProgressSteps(steps: seq<Step>)
    ensures forall s :: s in Progress(steps) ==> IsProgress(s)
  {
    if steps != [] { AllProgressSteps(steps[..|steps| - 1]); }
  }

  // ----------------------------------------------------------------- calls and tools

  lemma EnterShape(strict: bool, run: Run, calls: seq<ToolCall>, left: int, request: Request)
    requires RunShape(strict, run, request) && PcShape(strict, run, Calling(calls, left))
    ensures Enter(run, left) == run.(stop := Some(StopReason.Finished))
    ensures RunShape(strict, Enter(run, left), request)
    ensures PcShape(strict, Enter(run, left), Calling(calls, left))
  {
  }

  lemma TakeShape(strict: bool, run: Run, calls: seq<ToolCall>, left: int, call: ToolCall, request: Request)
    requires PcShape(strict, run, Calling(calls, left)) && CanCall(Calling(calls, left), call)
    ensures PcShape(strict, run, Executing(call, calls[1..], left))
    ensures strict ==> SameIds([call] + calls[1..], Progress(run.steps))
  {
    assert CallIds([call] + calls[1..]) == CallIds(calls);
  }

  lemma SameProgressShape(strict: bool, a: Run, b: Run, pc: Pc, request: Request)
    requires RunShape(strict, a, request) && PcShape(strict, a, pc)
    requires Progress(b.steps) == Progress(a.steps) && b.request == a.request && b.response == a.response
    requires b.remaining == a.remaining && b.status == a.status && b.pause == a.pause && b.stop == a.stop
    requires b.pendingCalls == a.pendingCalls
    ensures RunShape(strict, b, request) && PcShape(strict, b, pc)
  {
  }

  lemma WaitShape(strict: bool, run: Run, calls: seq<ToolCall>, left: int, call: ToolCall, requested: string, request: Request)
    requires RunShape(strict, run, request) && PcShape(strict, run, Calling(calls, left)) && CanCall(Calling(calls, left), call)
    ensures var waiting := run.(status := Paused, stop := None, remaining := left,
                                pendingCalls := [call] + calls[1..], pendingApprovals := [requested]);
            RunShape(strict, waiting, request) && PcShape(strict, waiting, Ended)
  {
    TakeShape(strict, run, calls, left, call, request);
  }

  /** Where the loop goes on after a result or an error. */
  function AfterTool(run: Run, e: Event, rest: seq<ToolCall>, left: int): Pc {
    if e.kind == ToolFailed && !run.request.recoverToolErrors then Broken(left)
    else if rest == [] then RoundDone(left) else Calling(rest, left)
  }

  predicate AnswersCall(e: Event, call: ToolCall) {
    && e.kind in {ToolCompleted, ToolFailed} && e.call == Some(call) && e.message.Some?
    && e.message.value.role == ToolRole && e.message.value.callId == Some(call.id) && IsActive(e.message.value)
  }

  function WithTool(run: Run, e: Event, id: nat): Run
    requires ProgressOf(e).Some?
  {
    run.(steps := run.steps + [ProgressOf(e).value.(eventId := Some(id))])
  }

  lemma ToolProgress(run: Run, e: Event, id: nat)
    requires e.kind in {ToolCompleted, ToolFailed} && e.call.Some?
    ensures Progress(WithTool(run, e, id).steps) == Progress(run.steps) + [ProgressOf(e).value]
  {
    ProgressPush(run.steps, ProgressOf(e).value.(eventId := Some(id)));
  }

  /** One more result: the pending calls lose their first. */
  lemma ToolStepShape(strict: bool, p: seq<Step>, s: Step, call: ToolCall, rest: seq<ToolCall>, response: Option<Response>, left: int, max: nat)
    requires Shape(strict, p, response, left, max) && left > 0 && IsToolStep(s)
    requires strict ==> SameIds([call] + rest, p) && AnswerOk(s, call.id)
    ensures Shape(strict, p + [s], response, left, max)
    ensures strict ==> SameIds(rest, p + [s]) && (rest == [] ==> Complete(p + [s]))
  {
    hide CallIds, Round, InProtocol, LastChat, Pending, AnswerOk;
    PushTool(p, s);
    if strict {
      TakenIds(call, rest, Pending(p));
      PendingIs(p);
    }
  }

  lemma ToolShape(strict: bool, run: Run, call: ToolCall, rest: seq<ToolCall>, left: int, e: Event, id: nat, request: Request)
    requires RunShape(strict, run, request) && PcShape(strict, run, Executing(call, rest, left))
    requires e.kind in {ToolCompleted, ToolFailed} && e.call.Some? && (strict ==> AnswersCall(e, call))
    ensures var next := WithTool(run, e, id);
            RunShape(strict, next, request) && PcShape(strict, next, AfterTool(run, e, rest, left))
  {
    hide Shape, SameIds, Complete, Progress, Round;
    ToolProgress(run, e, id);
    ToolStepShape(strict, Progress(run.steps), ProgressOf(e).value, call, rest, run.response, left, request.maxToolRounds);
  }

  lemma TakenIds(call: ToolCall, rest: seq<ToolCall>, pending: seq<ToolCall>)
    requires CallIds([call] + rest) == CallIds(pending)
    ensures pending != [] && pending[0].id == call.id && CallIds(rest) == CallIds(pending[1..])
    ensures rest == [] ==> pending[1..] == []
  {
    assert |CallIds(pending)| == |pending| == 1 + |rest|;
    assert CallIds(pending)[0] == call.id;
    forall i | 0 <= i < |rest| ensures rest[i].id == pending[1..][i].id {
      assert CallIds([call] + rest)[i + 1] == rest[i].id;
    }
  }

  lemma EndRoundShape(strict: bool, run: Run, left: int, request: Request)
    requires RunShape(strict, run, request) && PcShape(strict, run, RoundDone(left))
    ensures Local(strict, run, run.(remaining := left - 1), Chatting(left - 1), request)
  {
    hide InProtocol, Round, LastChat, Pending;
  }

  lemma FinishReshapes(run: Run, pc: Pc)
    requires (pc.Broken? || pc.Calling?) && pc.left == run.remaining && 0 <= run.remaining
    ensures Reshaped(run, FinishRun(run, pc))
  {
    hide Progress, StepIds;
    ProgressPush(run.steps, BareStep(StopStep));
  }

  lemma NoneLeft(calls: seq<ToolCall>, p: seq<Step>)
    requires SameIds(calls, p)
    ensures Pending(p) == [] <==> calls == []
  {
    assert |CallIds(Pending(p))| == |CallIds(calls)|;
  }

  lemma FinishShape(strict: bool, run: Run, pc: Pc, request: Request)
    requires RunShape(strict, run, request) && PcShape(strict, run, pc) && (pc.Broken? || pc.Calling?)
    ensures Local(strict, run, FinishRun(run, pc), Stopping, request)
  {
    hide InProtocol, Round, LastChat, Complete, Progress, StepIds, Pending, SameIds;
    FinishReshapes(run, pc);
    if strict && pc.Calling? { NoneLeft(pc.calls, Progress(run.steps)); }
  }

  lemma ErrorAnswers(call: ToolCall, error: string)
    ensures AnswersCall(ErrorEvent(call, error), call)
  {
  }

  lemma ResultAnswers(call: ToolCall, result: ToolResult)
    ensures result.id == call.id ==> AnswersCall(ResultEvent(call, result), call)
  {
  }

  lemma UnnamedShape(strict: bool, run: Run, call: ToolCall, rest: seq<ToolCall>, left: int)
    requires PcShape(strict, run, Executing(call, rest, left))
    ensures PcShape(strict, run, InTool(call, rest, left, None))
  {
  }

  /** What the ledger serves or dispatches belongs to the call. */
  lemma PlanEchoes(strict: bool, ledger: seq<Attempt>, runId: string, round: nat, id: string, tool: Option<ReplayPolicy>)
    requires strict ==> EchoOk(ledger)
    ensures match PlanCall(ledger, runId, round, id, tool)
            case Serve(result) => strict ==> result.id == id
            case DispatchNew(a) => a.id == id && a.round == Some(round) && (strict ==> EchoRow(a))
            case DispatchScheduled(a) => a.id == id && a.round == Some(round) && (strict ==> EchoRow(a))
            case _ => true
  {
    var latest := Latest(ledger, round, id);
    if strict && latest.Some? { assert EchoRow(latest.value); }
  }

  lemma StillHere(strict: bool, live: Live, next: Live, request: Request)
    requires RunShape(strict, live.run, request) && PcShape(strict, live.run, live.pc) && InLoop(live.pc)
    requires next.run == live.run && InLoop(next.pc) && PcShape(strict, live.run, next.pc)
    ensures Local(strict, live.run, next.run, next.pc, request)
  {
  }
}
