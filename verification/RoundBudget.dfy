/** Over whole untorn runs: the shape every state keeps, and what recovery restores. */
module RoundBudget {
  import opened Wrappers
  import opened Content
  import opened Runs
  import opened Recovery
  import opened Ledger
  import opened Machine
  import opened Safety
  import opened Agreement
  import opened Replaying
  import opened Exclusive
  import opened Protocol
  import opened Untorn
  import opened Budgets

  // -------------------------------------------------------------- one operation each

  /** What every operation of a copy starts from. */
  ghost predicate Ready(strict: bool, d: Durable, c: Live, id: nat, request: Request) {
    && DurableOk(d, request) && LiveOk(d, c, request) && DShape(strict, d, request) && CopyShape(strict, d, c, request)
    && IdsBelow(d.journal, id)
  }

  lemma ReadyShapes(strict: bool, d: Durable, c: Live, id: nat, request: Request)
    requires Ready(strict, d, c, id, request)
    ensures RunShape(strict, c.run, request) && PcShape(strict, c.run, c.pc)
    ensures c.run.request == request
    ensures strict ==> EchoOk(d.ledger)
  {
    hide Shape, PcShape, DurableOk, LiveOk;
  }

  lemma FailSegment(strict: bool, d: Durable, c: Live, id: nat, request: Request)
    requires Ready(strict, d, c, id, request)
    ensures ShapedSegment(strict, d, request, Segment(FailWrites(d, c, id), None))
  {
    hide DurableOk, LiveOk, DShape, CopyShape, IdsBelow, FailWrites, ShapedWrites;
    FailShaped(strict, d, c, id, request);
  }

  lemma PersistSegment(strict: bool, d: Durable, live: Live, run: Run, e: Event, id: nat, pc: Pc, request: Request)
    requires Ready(strict, d, live, id, request) && InLoop(live.pc)
    requires EventOk(Stamp(e, id, 1), request.maxToolRounds) && Carries(live.run, run, Stamp(e, id, 1))
    requires RunShape(strict, run, request) && PcShape(strict, run, pc)
    ensures ShapedSegment(strict, d, request, Persist(d, live, run, e, id, pc))
  {
    hide DurableOk, LiveOk, DShape, CopyShape, IdsBelow, Carries, EventOk, RunShape, PcShape, Persist, ShapedSegment;
    StepShaped(strict, d, live, run, e, id, pc, request);
  }

  lemma SilentSegment(strict: bool, d: Durable, a: Live, b: Live, id: nat, request: Request)
    requires Ready(strict, d, a, id, request)
    requires MayRun(a) && Local(strict, a.run, b.run, b.pc, request) && b.jumped == a.jumped
    ensures ShapedSegment(strict, d, request, Segment([], Some(b)))
  {
    hide DurableOk, LiveOk, DShape, CopyShape, IdsBelow, Local, ShapedSegment;
    SilentShaped(strict, d, a, b, request);
  }

  lemma IdleSegment(strict: bool, d: Durable, c: Live, id: nat, request: Request)
    requires Ready(strict, d, c, id, request)
    ensures ShapedSegment(strict, d, request, Segment([], Some(c)))
  {
    hide DurableOk, LiveOk, DShape, CopyShape, IdsBelow, ShapedSegment;
    IdleShaped(strict, d, c, request);
  }

  /** An event that records no progress, for a run that changed only in memory. */
  lemma QuietSegment(strict: bool, d: Durable, live: Live, run: Run, e: Event, id: nat, pc: Pc, request: Request)
    requires Ready(strict, d, live, id, request) && InLoop(live.pc)
    requires e.kind !in {ChatCompleted, ToolCompleted, ToolFailed} && (e.kind == RunStopped ==> e.stop != OtherText)
    requires && run.request == live.run.request && run.applied == live.run.applied && run.trace == live.run.trace
             && run.remaining == live.run.remaining && run.response == live.run.response
    requires Progress(run.steps) == Progress(live.run.steps) && StepIds(run.steps) <= StepIds(live.run.steps) + {id}
    requires RunShape(strict, run, request) && PcShape(strict, run, pc)
    ensures ShapedSegment(strict, d, request, Persist(d, live, run, e, id, pc))
  {
    hide Ready, RunShape, PcShape, Persist, ShapedSegment, StepIds, Progress;
    assert Progress(live.run.steps) + [] == Progress(live.run.steps);
    PersistSegment(strict, d, live, run, e, id, pc, request);
  }

  lemma StartSegment(strict: bool, d: Durable, live: Live, id: nat, request: Request)
    requires Ready(strict, d, live, id, request) && live.pc == Fresh
    ensures ShapedSegment(strict, d, request, OpeningSegment(d, live, id, StartRun))
  {
    hide Ready, RunShape, PcShape, Persist, ShapedSegment, StepIds, Progress;
    ReadyShapes(strict, d, live, id, request);
    StartShape(strict, live.run, id, request);
    var s := BareStep(StartStep).(eventId := Some(id));
    ProgressPush(live.run.steps, s);
    QuietSegment(strict, d, live, live.run.(steps := live.run.steps + [s]), BareEvent(RunStarted), id,
                 Chatting(live.run.request.maxToolRounds), request);
  }

  lemma RespondSegment(strict: bool, d: Durable, live: Live, id: nat, response: Response, request: Request)
    requires Ready(strict, d, live, id, request) && live.pc.Chatting? && (strict ==> GoodReply(response.message))
    ensures ShapedSegment(strict, d, request, OpeningSegment(d, live, id, Respond(response)))
  {
    hide Ready, Persist, ShapedSegment, StepIds, Progress, GoodReply, InProtocol, Round;
    ReadyShapes(strict, d, live, id, request);
    RespondShape(strict, live.run, live.pc.left, response, id, request);
    var run := Responded(live.run, response, id);
    ProgressPush(live.run.steps, run.steps[|live.run.steps|]);
    PersistSegment(strict, d, live, run, ChatEvent(live.run, response), id, Calling(response.message.calls, live.pc.left), request);
  }

  lemma DeltaSegment(strict: bool, d: Durable, live: Live, id: nat, text: string, request: Request)
    requires Ready(strict, d, live, id, request) && live.pc.Chatting?
    ensures ShapedSegment(strict, d, request, OpeningSegment(d, live, id, Delta(text)))
  {
    hide DurableOk, LiveOk, DShape, CopyShape, RunShape, ShapedWrites, PcShape;
    var e := Stamp(BareEvent(ChatDelta), id, |d.journal| + 1);
    ReadyShapes(strict, d, live, id, request);
    if d.snap.status == Canceled {
      NoWrites(strict, d, request);
    } else {
      AliveInLoop(strict, d, live, request);
      CopyAbreast(strict, d, live, request);
      DeltaShaped(strict, d, live, e, id, request);
    }
  }

  lemma NoWrites(strict: bool, d: Durable, request: Request)
    ensures ShapedWrites(strict, d, request, [])
  {
  }

  lemma AliveInLoop(strict: bool, d: Durable, c: Live, request: Request)
    requires CopyShape(strict, d, c, request) && InLoop(c.pc) && d.snap.status != Canceled
    ensures Alive(d)
  {
  }

  lemma DeltaShaped(strict: bool, d: Durable, c: Live, e: Event, id: nat, request: Request)
    requires Abreast(strict, d, c, request) && IdsBelow(d.journal, id) && PcShape(strict, c.run, c.pc)
    requires e == Stamp(BareEvent(ChatDelta), id, |d.journal| + 1)
    ensures ShapedSegment(strict, d, request, Segment([Append(e)], Some(Live(Noted(c.run, e), c.pc, false, Jumped(d, c)))))
  {
    hide DurableOk, InStep, DShape, RunShape, Charge, NextEvent, Carries, ShapedWrite, ShapedWrites, CopyShape, Jumped, IdsBelow, PcShape;
    QuietCarries(d, c.run, e, id, request);
    AppendRunAbreast(strict, d, c, c.run, e, request);
    ShapedOne(strict, d, request, Append(e));
    PcShapeNoted(strict, c.run, Noted(c.run, e), c.pc);
    AbreastCopy(strict, Apply(d, Append(e)), Live(Noted(c.run, e), c.pc, false, Jumped(d, c)), request);
  }

  lemma ResumeSegment(strict: bool, d: Durable, live: Live, id: nat, request: Request)
    requires Ready(strict, d, live, id, request) && live.pc == Loaded
    ensures ShapedSegment(strict, d, request, OpeningSegment(d, live, id, Begin))
  {
    hide Ready, ShapedSegment, FailWrites, Local, RunShape, PcShape;
    ReadyShapes(strict, d, live, id, request);
    if Resume(live) == None {
      FailSegment(strict, d, live, id, request);
    } else {
      ResumeShape(strict, live, request);
      SilentSegment(strict, d, live, Resume(live).value, id, request);
    }
  }

  lemma OpeningShaped(strict: bool, d: Durable, live: Live, id: nat, action: Action, request: Request)
    requires Ready(strict, d, live, id, request)
    requires strict && action.Respond? ==> GoodReply(action.response.message)
    ensures ShapedSegment(strict, d, request, OpeningSegment(d, live, id, action))
  {
    hide Ready, ShapedSegment, FailWrites, Resume, Persist, Responded, GoodReply, Noted, Stamp;
    IdleSegment(strict, d, live, id, request);
    match action
    case Begin => if live.pc == Loaded { ResumeSegment(strict, d, live, id, request); }
    case StartRun => if live.pc == Fresh { StartSegment(strict, d, live, id, request); }
    case Delta(text) => if live.pc.Chatting? { DeltaSegment(strict, d, live, id, text, request); }
    case Respond(response) => if live.pc.Chatting? { RespondSegment(strict, d, live, id, response, request); }
    case _ =>
  }

  lemma ToolEventFits(run: Run, e: Event, id: nat, request: Request)
    requires e.kind in {ToolCompleted, ToolFailed} && e.call.Some?
    ensures EventOk(Stamp(e, id, 1), request.maxToolRounds) && Carries(run, WithTool(run, e, id), Stamp(e, id, 1))
  {
    var s := ProgressOf(e).value.(eventId := Some(id));
    ProgressPush(run.steps, s);
    assert ProgressOf(Stamp(e, id, 1)) == ProgressOf(e);
  }

  lemma RecordSegment(strict: bool, d: Durable, live: Live, call: ToolCall, e: Event, id: nat, rest: seq<ToolCall>, left: int, request: Request)
    requires Ready(strict, d, live, id, request) && InLoop(live.pc)
    requires PcShape(strict, live.run, Executing(call, rest, left))
    requires e.kind in {ToolCompleted, ToolFailed} && e.call.Some? && (strict ==> AnswersCall(e, call))
    ensures ShapedSegment(strict, d, request, RecordTool(d, live, e, id, rest, left))
  {
    hide Ready, RunShape, PcShape, Persist, ShapedSegment, Carries, EventOk, AnswersCall;
    ReadyShapes(strict, d, live, id, request);
    ToolShape(strict, live.run, call, rest, left, e, id, request);
    ToolEventFits(live.run, e, id, request);
    PersistSegment(strict, d, live, WithTool(live.run, e, id), e, id, AfterTool(live.run, e, rest, left), request);
    assert RecordTool(d, live, e, id, rest, left)
           == Persist(d, live, WithTool(live.run, e, id), e, id, AfterTool(live.run, e, rest, left));
  }

  // ------------------------------------------------------------ taking up a call

  /** The copy at a call that may be taken up, once the loop has assigned its counters. */
  lemma EnteredReady(strict: bool, d: Durable, live: Live, id: nat, call: ToolCall, request: Request)
    requires Ready(strict, d, live, id, request) && CanCall(live.pc, call)
    ensures var run, left, rest := live.run, live.pc.left, live.pc.calls[1..];
            var entered := Enter(run, left);
            && entered == run.(stop := Some(StopReason.Finished)) && left == run.remaining
            && RunShape(strict, entered, request) && PcShape(strict, entered, live.pc)
            && PcShape(strict, entered, Executing(call, rest, left))
            && RunShape(strict, run, request) && PcShape(strict, run, live.pc)
  {
    hide Ready, RunShape, SameIds;
    ReadyShapes(strict, d, live, id, request);
    EnterShape(strict, live.run, live.pc.calls, live.pc.left, request);
    TakeShape(strict, Enter(live.run, live.pc.left), live.pc.calls, live.pc.left, call, request);
  }

  lemma AskSegment(strict: bool, d: Durable, live: Live, id: nat, call: ToolCall, approval: Option<string>, request: Request)
    requires Ready(strict, d, live, id, request) && CanCall(live.pc, call)
    ensures ShapedSegment(strict, d, request, CallSegment(d, live, id, AskApproval(call, approval)))
    ensures ShapedSegment(strict, d, request, CallSegment(d, live, id, DecideApproval(call)))
  {
    hide Ready, RunShape, PcShape, Persist, ShapedSegment, StepIds, Progress;
    EnteredReady(strict, d, live, id, call, request);
    var entered := Enter(live.run, live.pc.left);
    QuietSegment(strict, d, live, entered, BareEvent(ApprovalRequested).(call := Some(call), approval := approval), id, live.pc, request);
    QuietSegment(strict, d, live, entered, BareEvent(ApprovalDecided).(call := Some(call)), id, live.pc, request);
  }

  lemma WaitSegment(strict: bool, d: Durable, live: Live, id: nat, call: ToolCall, requested: string, request: Request)
    requires Ready(strict, d, live, id, request) && CanCall(live.pc, call)
    ensures ShapedSegment(strict, d, request, CallSegment(d, live, id, PauseForApproval(call, requested)))
  {
    hide Ready, RunShape, PcShape, Persist, ShapedSegment, StepIds, Progress;
    EnteredReady(strict, d, live, id, call, request);
    WaitShape(strict, live.run, live.pc.calls, live.pc.left, call, requested, request);
    var waiting := live.run.(status := Paused, stop := None, remaining := live.pc.left,
                             pendingCalls := [call] + live.pc.calls[1..], pendingApprovals := [requested]);
    QuietSegment(strict, d, live, waiting, BareEvent(RunPaused).(call := Some(call), approval := Some(requested)), id, Ended, request);
  }

  lemma TakeSegment(strict: bool, d: Durable, live: Live, id: nat, call: ToolCall, request: Request)
    requires Ready(strict, d, live, id, request) && CanCall(live.pc, call)
    ensures ShapedSegment(strict, d, request, CallSegment(d, live, id, StartTool(call)))
  {
    hide Ready, RunShape, PcShape, Persist, ShapedSegment, StepIds, Progress, Touch;
    EnteredReady(strict, d, live, id, call, request);
    TouchKeeps(live.run.steps, ToolStep, id);
    var entered := Enter(live.run, live.pc.left);
    var touched := entered.(steps := Touch(live.run.steps, ToolStep, id));
    SameProgressShape(strict, entered, touched, Executing(call, live.pc.calls[1..], live.pc.left), request);
    QuietSegment(strict, d, live, touched, BareEvent(ToolStarted).(call := Some(call)), id,
                 Executing(call, live.pc.calls[1..], live.pc.left), request);
  }

  lemma SkipSegment(strict: bool, d: Durable, live: Live, id: nat, call: ToolCall, request: Request)
    requires Ready(strict, d, live, id, request) && CanCall(live.pc, call)
    ensures ShapedSegment(strict, d, request, CallSegment(d, live, id, SkipStart(call)))
  {
    hide Ready, RunShape, PcShape, ShapedSegment, StepIds, Progress;
    EnteredReady(strict, d, live, id, call, request);
    var entered := Enter(live.run, live.pc.left);
    PositiveRemaining(strict, live.run, request);
    SilentSegment(strict, d, live, Live(entered, Executing(call, live.pc.calls[1..], live.pc.left), false, live.jumped), id, request);
  }

  lemma PositiveRemaining(strict: bool, run: Run, request: Request)
    requires RunShape(strict, run, request)
    ensures 0 <= run.remaining
  {
  }

  lemma RejectSegment(strict: bool, d: Durable, live: Live, id: nat, call: ToolCall, error: string, request: Request)
    requires Ready(strict, d, live, id, request) && CanCall(live.pc, call)
    ensures ShapedSegment(strict, d, request, CallSegment(d, live, id, RejectTool(call, error)))
  {
    hide RunShape, PcShape, ShapedSegment, RecordTool, DurableOk, LiveOk, DShape, CopyShape, IdsBelow, SameIds, AnswersCall;
    EnteredReady(strict, d, live, id, call, request);
    var entered := live.(run := Enter(live.run, live.pc.left));
    PositiveRemaining(strict, live.run, request);
    SilentSegment(strict, d, live, entered, id, request);
    StillReady(strict, d, live, entered, id, request);
    ErrorAnswers(call, error);
    RecordSegment(strict, d, entered, call, ErrorEvent(call, error), id, live.pc.calls[1..], live.pc.left, request);
  }

  lemma StillReady(strict: bool, d: Durable, a: Live, b: Live, id: nat, request: Request)
    requires Ready(strict, d, a, id, request) && ShapedSegment(strict, d, request, Segment([], Some(b)))
    requires b.run == a.run.(stop := b.run.stop) && b.pc == a.pc && b.jumped == a.jumped
    ensures Ready(strict, d, b, id, request)
  {
    hide DurableOk, DShape, CopyShape, IdsBelow, ShapedWrites;
  }

  lemma CallShaped(strict: bool, d: Durable, live: Live, id: nat, action: Action, request: Request)
    requires Ready(strict, d, live, id, request)
    ensures ShapedSegment(strict, d, request, CallSegment(d, live, id, action))
  {
    hide Ready, ShapedSegment, CanCall, Persist, RecordTool, Enter, Touch;
    IdleSegment(strict, d, live, id, request);
    match action
    case AskApproval(call, approval) => if CanCall(live.pc, call) { AskSegment(strict, d, live, id, call, approval, request); }
    case DecideApproval(call) => if CanCall(live.pc, call) { AskSegment(strict, d, live, id, call, None, request); }
    case PauseForApproval(call, requested) =>
      if CanCall(live.pc, call) { WaitSegment(strict, d, live, id, call, requested, request); }
    case StartTool(call) => if CanCall(live.pc, call) { TakeSegment(strict, d, live, id, call, request); }
    case SkipStart(call) => if CanCall(live.pc, call) { SkipSegment(strict, d, live, id, call, request); }
    case RejectTool(call, error) => if CanCall(live.pc, call) { RejectSegment(strict, d, live, id, call, error, request); }
    case _ =>
  }

  // ------------------------------------------------------------- running the tool

  lemma LedgerSegment(strict: bool, d: Durable, w: Write, seg: Segment, request: Request)
    requires ShapedWrite(strict, d, request, w) && ShapedSegment(strict, Apply(d, w), request, seg)
    ensures ShapedSegment(strict, d, request, Segment([w] + seg.writes, seg.next))
  {
    hide ShapedWrite, ShapedWrites, CopyShape, Apply;
    ShapedCons(strict, d, request, w, seg.writes);
  }

  lemma CopyIgnoresLedger(strict: bool, d: Durable, c: Live, w: Write, request: Request)
    requires TouchesLedgerOnly(w)
    ensures CopyShape(strict, Apply(d, w), c, request) <==> CopyShape(strict, d, c, request)
  {
    hide RunShape, PcShape, Charge, RestoredShape;
  }

  lemma LedgerStillReady(strict: bool, d: Durable, c: Live, w: Write, id: nat, request: Request)
    requires Ready(strict, d, c, id, request) && TouchesLedgerOnly(w) && ShapedWrite(strict, d, request, w)
    ensures Ready(strict, Apply(d, w), c, id, request)
  {
    hide DurableOk, LiveOk, DShape, CopyShape, ShapedWrite;
    LedgerWriteKeeps(d, c, w, request);
    LedgerShapes(strict, d, request, w);
    CopyIgnoresLedger(strict, d, c, w, request);
  }

  /** An attempt handed to its tool, in a round the budget allows. */
  lemma {:induction false} SendSegment(strict: bool, d: Durable, live: Live, ws: seq<Write>, next: Live, request: Request)
    requires CopyShape(strict, d, next, request)
    requires forall w :: w in ws ==> TouchesLedgerOnly(w) && ShapedWrite(strict, d, request, w)
    ensures ShapedSegment(strict, d, request, Segment(ws, Some(next)))
    decreases |ws|
  {
    hide CopyShape, TouchesLedgerOnly;
    if ws == [] {
      NoWrites(strict, d, request);
    } else {
      var d1 := Apply(d, ws[0]);
      assert ws[0] in ws;
      CopyIgnoresLedger(strict, d, next, ws[0], request);
      forall w | w in ws[1..] ensures TouchesLedgerOnly(w) && ShapedWrite(strict, d1, request, w) {
        assert w in ws;
        LedgerOnlySameShape(strict, d, d1, request, w);
      }
      SendSegment(strict, d1, live, ws[1..], next, request);
      LedgerSegment(strict, d, ws[0], Segment(ws[1..], Some(next)), request);
      assert [ws[0]] + ws[1..] == ws;
    }
  }

  lemma LedgerOnlySameShape(strict: bool, a: Durable, b: Durable, request: Request, w: Write)
    requires TouchesLedgerOnly(w) && ShapedWrite(strict, a, request, w)
    ensures ShapedWrite(strict, b, request, w)
  {
  }

  lemma DispatchSegment(strict: bool, d: Durable, live: Live, a: Attempt, create: bool, id: nat, request: Request)
    requires Ready(strict, d, live, id, request) && live.pc.Executing?
    requires a.id == live.pc.call.id && a.round == Some(Round(live.run.steps)) && (strict ==> EchoRow(a))
    ensures var started := a.(status := Started);
            var next := Live(live.run, InTool(live.pc.call, live.pc.rest, live.pc.left, Some(started)), false, live.jumped);
            var ws := [Put(started), Send(SentOf(a))];
            && ShapedSegment(strict, d, request, Segment(ws, Some(next)))
            && ShapedSegment(strict, d, request, Segment([Create(a)] + ws, Some(next)))
  {
    hide DurableOk, LiveOk, DShape, CopyShape, IdsBelow, ShapedSegment, Local;
    var started := a.(status := Started);
    var next := Live(live.run, InTool(live.pc.call, live.pc.rest, live.pc.left, Some(started)), false, live.jumped);
    ReadyShapes(strict, d, live, id, request);
    ProgressCounts(live.run.steps);
    StillHere(strict, live, next, request);
    SilentSegment(strict, d, live, next, id, request);
    SilentCopy(strict, d, next, request);
    SendSegment(strict, d, live, [Put(started), Send(SentOf(a))], next, request);
    SendSegment(strict, d, live, [Create(a)] + [Put(started), Send(SentOf(a))], next, request);
  }

  lemma SilentCopy(strict: bool, d: Durable, c: Live, request: Request)
    requires ShapedSegment(strict, d, request, Segment([], Some(c)))
    ensures CopyShape(strict, d, c, request)
  {
    hide CopyShape, ShapedWrites;
  }

  lemma ExecuteShaped(strict: bool, d: Durable, live: Live, id: nat, runId: string, tool: Option<ReplayPolicy>, request: Request)
    requires Ready(strict, d, live, id, request) && live.pc.Executing?
    ensures ShapedSegment(strict, d, request, ExecuteSegment(d, live, id, runId, tool))
  {
    hide Ready, ShapedSegment, RecordTool, FailWrites, RunShape, Round, AnswersCall, Local, PcShape;
    var Executing(call, rest, left) := live.pc;
    ReadyShapes(strict, d, live, id, request);
    if call.name == None {
      UnnamedShape(strict, live.run, call, rest, left);
      var next := Live(live.run, InTool(call, rest, left, None), false, live.jumped);
      StillHere(strict, live, next, request);
      SilentSegment(strict, d, live, next, id, request);
    } else {
      var plan := PlanCall(d.ledger, runId, Round(live.run.steps), call.id, tool);
      PlanEchoes(strict, d.ledger, runId, Round(live.run.steps), call.id, tool);
      match plan
      case Serve(result) =>
        ResultAnswers(call, result);
        RecordSegment(strict, d, live, call, ResultEvent(call, result), id, rest, left, request);
      case ServeError(error) =>
        ErrorAnswers(call, error);
        RecordSegment(strict, d, live, call, ErrorEvent(call, error), id, rest, left, request);
      case ToolMissing =>
        ErrorAnswers(call, "tool not found");
        RecordSegment(strict, d, live, call, ErrorEvent(call, "tool not found"), id, rest, left, request);
      case Refuse(_) => FailSegment(strict, d, live, id, request);
      case DispatchNew(a) =>
        DispatchSegment(strict, d, live, a, true, id, request);
        assert [Create(a)] + [Put(a.(status := Started)), Send(SentOf(a))] == [Create(a), Put(a.(status := Started)), Send(SentOf(a))];
      case DispatchScheduled(a) => DispatchSegment(strict, d, live, a, false, id, request);
    }
  }

  lemma ReturnShaped(strict: bool, d: Durable, live: Live, id: nat, outcome: Outcome, e: Event, request: Request)
    requires Ready(strict, d, live, id, request) && live.pc.InTool?
    requires e.kind in {ToolCompleted, ToolFailed} && e.call.Some? && (strict ==> AnswersCall(e, live.pc.call))
    requires strict && outcome.Returned? ==> outcome.result.id == live.pc.call.id
    ensures ShapedSegment(strict, d, request, Close(live.pc.attempt, outcome, RecordTool(d, live, e, id, live.pc.rest, live.pc.left)))
  {
    hide Ready, ShapedSegment, RecordTool, RunShape, AnswersCall;
    var InTool(call, rest, left, attempt) := live.pc;
    ReadyShapes(strict, d, live, id, request);
    if attempt == None {
      RecordSegment(strict, d, live, call, e, id, rest, left, request);
    } else {
      var w := Put(Concluded(attempt.value, outcome));
      LedgerStillReady(strict, d, live, w, id, request);
      RecordSegment(strict, Apply(d, w), live, call, e, id, rest, left, request);
      RecordIgnoresLedger(d, w, live, e, id, rest, left);
      LedgerSegment(strict, d, w, RecordTool(d, live, e, id, rest, left), request);
    }
  }

  lemma ToolShaped(strict: bool, d: Durable, live: Live, id: nat, runId: string, action: Action, request: Request)
    requires Ready(strict, d, live, id, request)
    requires strict && action.ToolReturns? && live.pc.InTool? ==> action.result.id == live.pc.call.id
    ensures ShapedSegment(strict, d, request, ToolSegment(d, live, id, runId, action))
  {
    hide Ready, ShapedSegment, RecordTool, ExecuteSegment, Close, AnswersCall, RunShape, PcShape, Local;
    IdleSegment(strict, d, live, id, request);
    ReadyShapes(strict, d, live, id, request);
    match action
    case Execute(tool) => if live.pc.Executing? { ExecuteShaped(strict, d, live, id, runId, tool, request); }
    case ToolReturns(result) =>
      if live.pc.InTool? {
        ResultAnswers(live.pc.call, result);
        ReturnShaped(strict, d, live, id, Returned(result), ResultEvent(live.pc.call, result), request);
      }
    case ToolRaises(error) =>
      if live.pc.InTool? {
        ErrorAnswers(live.pc.call, error);
        ReturnShaped(strict, d, live, id, Raised(error), ErrorEvent(live.pc.call, error), request);
      }
    case EndRound =>
      if live.pc.RoundDone? {
        EndRoundShape(strict, live.run, live.pc.left, request);
        SilentSegment(strict, d, live, Live(live.run.(remaining := live.pc.left - 1), Chatting(live.pc.left - 1), false, live.jumped),
                      id, request);
      }
    case _ =>
  }

  // --------------------------------------------------------------------- closing

  lemma StopSegment(strict: bool, d: Durable, live: Live, id: nat, request: Request)
    requires Ready(strict, d, live, id, request) && live.pc == Stopping && live.run.stop.Some?
    ensures ShapedSegment(strict, d, request,
                          Persist(d, live, Stopped(live.run, id), StopEvent(StopBy(live.run.stop.value)), id, Ended))
  {
    hide Ready, ShapedSegment, Persist, Touch, Progress, StepIds, Shape;
    ReadyShapes(strict, d, live, id, request);
    TouchKeeps(live.run.steps, StopStep, id);
    QuietSegment(strict, d, live, Stopped(live.run, id), StopEvent(StopBy(live.run.stop.value)), id, Ended, request);
  }

  lemma MemorySegment(strict: bool, d: Durable, live: Live, id: nat, request: Request)
    requires Ready(strict, d, live, id, request) && live.pc == Stopping
    ensures ShapedSegment(strict, d, request, ClosingSegment(d, live, id, WriteMemory))
  {
    hide Ready, ShapedSegment, Persist, Progress, StepIds, RunShape, PcShape;
    ReadyShapes(strict, d, live, id, request);
    var s := BareStep(MemoryStep).(eventId := Some(id));
    ProgressPush(live.run.steps, s);
    var run := live.run.(steps := live.run.steps + [s]);
    SameProgressShape(strict, live.run, run, Stopping, request);
    QuietSegment(strict, d, live, run, BareEvent(MemoryWritten), id, Stopping, request);
  }

  lemma LatePauseSegment(strict: bool, d: Durable, live: Live, id: nat, request: Request)
    requires Ready(strict, d, live, id, request)
    requires live.run.trace != [] && d.snap.status == Running && live.run.status == Running && !live.pc.Loaded?
    ensures var kind := live.run.trace[|live.run.trace| - 1].kind;
            var p := Stamp(BareEvent(RunPaused), id, |d.journal| + 1);
            var paused := PausedAt(live.run, kind, p);
            ShapedSegment(strict, d, request,
                          Segment([Append(p), Save(paused, Jumped(d, live))], Some(Live(paused, Ended, false, Jumped(d, live)))))
  {
    hide DurableOk, LiveOk, DShape, CopyShape, IdsBelow, ShapedWrites, Jumped, PausedAt, Stamp;
    CopyAbreast(strict, d, live, request);
    PauseShaped(strict, d, live, live.run.trace[|live.run.trace| - 1].kind, id, request);
  }

  lemma FinallySegment(strict: bool, d: Durable, c: Live, id: nat, request: Request)
    requires Ready(strict, d, c, id, request)
    ensures ShapedSegment(strict, d, request, Segment(FinallyWrites(d, c), None))
  {
    hide DurableOk, LiveOk, DShape, CopyShape, IdsBelow, ShapedWrites;
    FinallyShaped(strict, d, c, request);
  }

  lemma ClosingShaped(strict: bool, d: Durable, live: Live, id: nat, action: Action, request: Request)
    requires Ready(strict, d, live, id, request) && (live.yielded ==> !live.pc.Loaded?)
    ensures ShapedSegment(strict, d, request, ClosingSegment(d, live, id, action))
  {
    hide Ready, ShapedSegment, Persist, FailWrites, FinallyWrites, Local, PausedAt, Stamp, Jumped, Stopped, FinishRun, IsCheckpoint, RunShape, PcShape;
    IdleSegment(strict, d, live, id, request);
    ReadyShapes(strict, d, live, id, request);
    match action
    case Finish =>
      if live.pc.Broken? || live.pc.Calling? {
        FinishShape(strict, live.run, live.pc, request);
        SilentSegment(strict, d, live, Live(FinishRun(live.run, live.pc), Stopping, false, live.jumped), id, request);
      }
    case WriteMemory => if live.pc == Stopping { MemorySegment(strict, d, live, id, request); }
    case StopRun => if live.pc == Stopping && live.run.stop.Some? { StopSegment(strict, d, live, id, request); }
    case LatePause =>
      if live.yielded && live.run.trace != [] && d.snap.status == Running && live.run.status == Running {
        LatePauseSegment(strict, d, live, id, request);
      }
    case Raise => FailSegment(strict, d, live, id, request);
    case Interrupt => FinallySegment(strict, d, live, id, request);
    case Return => FinallySegment(strict, d, live, id, request);
    case _ =>
  }

  lemma ActShaped(strict: bool, d: Durable, live: Live, id: nat, runId: string, action: Action, request: Request)
    requires Ready(strict, d, live, id, request) && (live.yielded ==> !live.pc.Loaded?)
    requires strict && action.Respond? ==> GoodReply(action.response.message)
    requires strict && action.ToolReturns? && live.pc.InTool? ==> action.result.id == live.pc.call.id
    ensures ShapedSegment(strict, d, request, ActSegment(d, live, id, runId, action))
  {
    hide Ready, ShapedSegment, OpeningSegment, CallSegment, ToolSegment, ClosingSegment, GoodReply;
    OpeningShaped(strict, d, live, id, action, request);
    CallShaped(strict, d, live, id, action, request);
    ToolShaped(strict, d, live, id, runId, action, request);
    ClosingShaped(strict, d, live, id, action, request);
  }

  lemma YieldedIsNotLoaded(d: Durable, live: Live, id: nat, runId: string, action: Action)
    requires live.yielded ==> !live.pc.Loaded?
    ensures NotLoaded(ActSegment(d, live, id, runId, action))
  {
    hide OpeningSegment, CallSegment, ToolSegment, ClosingSegment;
    OpeningNotLoaded(d, live, id, action);
    CallNotLoaded(d, live, id, action);
    ToolNotLoaded(d, live, id, runId, action);
    ClosingNotLoaded(d, live, id, action);
  }

  predicate NotLoaded(seg: Segment) {
    seg.next.Some? && seg.next.value.yielded ==> !seg.next.value.pc.Loaded?
  }

  lemma OpeningNotLoaded(d: Durable, live: Live, id: nat, action: Action)
    requires live.yielded ==> !live.pc.Loaded?
    ensures NotLoaded(OpeningSegment(d, live, id, action))
  {
    hide Jumped, Stamp, Noted, IncompleteCalls, CompletedIds, FailWrites, Responded;
  }

  lemma CallNotLoaded(d: Durable, live: Live, id: nat, action: Action)
    requires live.yielded ==> !live.pc.Loaded?
    ensures NotLoaded(CallSegment(d, live, id, action))
  {
    hide Jumped, Stamp, Touch, Noted, Enter, ProgressOf;
  }

  lemma ToolNotLoaded(d: Durable, live: Live, id: nat, runId: string, action: Action)
    requires live.yielded ==> !live.pc.Loaded?
    ensures NotLoaded(ToolSegment(d, live, id, runId, action))
  {
    hide Jumped, Stamp, Noted, PlanCall, FailWrites, ProgressOf;
  }

  lemma ClosingNotLoaded(d: Durable, live: Live, id: nat, action: Action)
    requires live.yielded ==> !live.pc.Loaded?
    ensures NotLoaded(ClosingSegment(d, live, id, action))
  {
    hide Jumped, Stamp, Touch, Noted, FailWrites, FinallyWrites, FinishRun, Stopped;
  }

  // ------------------------------------------------------------ control and recovery

  lemma SnapShape(strict: bool, d: Durable, request: Request)
    requires DShape(strict, d, request)
    ensures RunShape(strict, d.snap, request)
  {
    hide RunShape;
    assert Saved(d, d.snap);
  }

  /** A control call that ends the run notes its event on the stored snapshot. */
  lemma EndingShaped(strict: bool, d: Durable, e: Event, run: Run, jumped: set<nat>, request: Request)
    requires DurableOk(d, request) && DShape(strict, d, request)
    requires !IsProgressEvent(e) && e.kind != ChatCompleted
    requires RunShape(strict, run, request) && !AliveRun(run)
    ensures ShapedWrites(strict, d, request, [Append(e), Save(run, jumped)])
  {
    hide RunShape, DShape, ShapedWrite, ShapedWrites, JournalOk, AliveRun;
    QuietAppend(strict, d, e, request);
    StoppedSave(strict, Apply(d, Append(e)), run, jumped, request);
    ShapedOne(strict, Apply(d, Append(e)), request, Save(run, jumped));
    ShapedCons(strict, d, request, Append(e), [Save(run, jumped)]);
    assert [Append(e)] + [Save(run, jumped)] == [Append(e), Save(run, jumped)];
  }

  lemma CancelShaped(strict: bool, d: Durable, id: nat, request: Request)
    requires DurableOk(d, request) && DShape(strict, d, request)
    ensures ShapedWrites(strict, d, request, CancelWrites(d, id))
  {
    hide DurableOk, DShape, ShapedWrite, Shape, Progress;
    var e := Stamp(StopEvent(CanceledText), id, |d.journal| + 1);
    SnapShape(strict, d, request);
    EndingShaped(strict, d, e, CanceledBy(d.snap, e), Passed(d), request);
  }

  lemma MarkFailedShaped(strict: bool, d: Durable, id: nat, request: Request)
    requires DurableOk(d, request) && DShape(strict, d, request)
    ensures ShapedWrites(strict, d, request, MarkFailedWrites(d, id))
  {
    hide DurableOk, DShape, ShapedWrite, RunShape, FailedBy;
    var e := Stamp(StopEvent(FailedText), id, |d.journal| + 1);
    SnapShape(strict, d, request);
    FailedShape(strict, d.snap, e, request);
    EndingShaped(strict, d, e, FailedBy(d.snap, e), Passed(d), request);
  }

  /** The stored snapshot of a run that is not torn has all the progress of its journal. */
  lemma StoredAbreast(strict: bool, d: Durable, request: Request)
    requires DurableOk(d, request) && DShape(strict, d, request) && d.snap.status == Paused && !Torn(d)
    ensures Abreast(strict, d, Stored(d), request) && Jumped(d, Stored(d)) == Passed(d)
  {
    hide DurableOk, RunShape, Charge, Faithful, JumpOk, RestoredShape, EchoOk, Undiminished;
    StoredInStep(d, request);
    assert Saved(d, d.snap);
    assert Charged(strict, d, d.snap, request.maxToolRounds);
  }

  /** Noting an operator's resolution on a paused run. */
  lemma ResolutionShaped(strict: bool, d: Durable, id: nat, pause: Option<Pause>, request: Request)
    requires DurableOk(d, request) && DShape(strict, d, request) && d.snap.status == Paused && !Torn(d) && IdsBelow(d.journal, id)
    requires pause == None <==> d.snap.pause == None
    ensures ShapedWrites(strict, d, request, ResolvedWrites(d, id, pause))
  {
    hide DurableOk, DShape, RunShape, ShapedWrites, Abreast, Carries, NextEvent, IdsBelow, Torn, Passed, Jumped;
    var e := Stamp(BareEvent(ExecutionResolved), id, |d.journal| + 1);
    var saved := Noted(d.snap, e).(pause := pause);
    StoredAbreast(strict, d, request);
    SnapShape(strict, d, request);
    SameRunShape(strict, d.snap, saved, request);
    QuietCarries(d, d.snap, e, id, request);
    NoteAndSaveShaped(strict, d, Stored(d), d.snap, e, saved, request);
  }

  lemma {:induction false} LedgerFirst(strict: bool, d: Durable, first: seq<Write>, rest: seq<Write>, request: Request)
    requires DurableOk(d, request) && DShape(strict, d, request)
    requires forall w :: w in first ==> TouchesLedgerOnly(w) && ShapedWrite(strict, d, request, w)
    requires DShape(strict, ApplyAll(d, first), request) ==> ShapedWrites(strict, ApplyAll(d, first), request, rest)
    ensures DShape(strict, ApplyAll(d, first), request)
    ensures ShapedWrites(strict, d, request, first + rest)
    decreases |first|
  {
    hide DShape, DurableOk, TouchesLedgerOnly, ShapedWrite;
    if first == [] {
      assert first + rest == rest;
    } else {
      var d1 := Apply(d, first[0]);
      assert first[0] in first;
      LedgerShapes(strict, d, request, first[0]);
      LedgerDurable(d, first[0], request);
      forall w | w in first[1..] ensures TouchesLedgerOnly(w) && ShapedWrite(strict, d1, request, w) {
        assert w in first;
        LedgerOnlySameShape(strict, d, d1, request, w);
      }
      LedgerFirst(strict, d1, first[1..], rest, request);
      ShapedCons(strict, d, request, first[0], first[1..] + rest);
      assert [first[0]] + (first[1..] + rest) == first + rest;
    }
  }

  lemma LedgerDurable(d: Durable, w: Write, request: Request)
    requires DurableOk(d, request) && TouchesLedgerOnly(w)
    ensures DurableOk(Apply(d, w), request)
  {
    hide Faithful, JournalOk;
    assert forall s :: Saved(Apply(d, w), s) ==> Saved(d, s);
  }

  lemma {:induction false} LedgerDurables(d: Durable, ws: seq<Write>, request: Request)
    requires DurableOk(d, request) && forall w :: w in ws ==> TouchesLedgerOnly(w)
    ensures DurableOk(ApplyAll(d, ws), request)
    decreases |ws|
  {
    hide DurableOk;
    if ws != [] {
      assert ws[0] in ws;
      LedgerDurable(d, ws[0], request);
      LedgerDurables(Apply(d, ws[0]), ws[1..], request);
    }
  }

  lemma ResolveShaped(strict: bool, d: Durable, id: nat, call: string, number: nat, confirmed: Option<string>, request: Request)
    requires DurableOk(d, request) && DShape(strict, d, request) && !Torn(d) && IdsBelow(d.journal, id)
    ensures ShapedWrites(strict, d, request, ResolveWrites(d, id, call, number, confirmed))
  {
    hide DurableOk, DShape, ShapedWrites, IdsBelow, TailClean, AllResolved;
    var ws := ResolveWrites(d, id, call, number, confirmed);
    if ws == [] {
      NoWrites(strict, d, request);
    } else {
      ResolveSplit(d, id, call, number, confirmed);
      ResolvedEchoes(strict, d, id, call, number, confirmed, request);
      ResolveRestShaped(strict, d, ws[0], id, ws[2].run.pause, request);
    }
  }

  lemma ResolvedEchoes(strict: bool, d: Durable, id: nat, call: string, number: nat, confirmed: Option<string>, request: Request)
    requires DShape(strict, d, request) && ResolveWrites(d, id, call, number, confirmed) != []
    ensures var ws := ResolveWrites(d, id, call, number, confirmed);
            && ShapedWrite(strict, d, request, ws[0]) && d.snap.status == Paused
            && (ws[2].run.pause == None <==> d.snap.pause == None)
  {
    hide RunShape, Charged, SkipClean, RestoredShape, AllResolved;
    var found := FindAttempt(d.ledger, call, number).value;
    if strict { assert EchoRow(found); }
  }

  lemma ResolveRestShaped(strict: bool, d: Durable, w: Write, id: nat, pause: Option<Pause>, request: Request)
    requires DurableOk(d, request) && DShape(strict, d, request) && !Torn(d) && IdsBelow(d.journal, id)
    requires w.Resolve? && ShapedWrite(strict, d, request, w) && d.snap.status == Paused
    requires pause == None <==> d.snap.pause == None
    ensures ShapedWrites(strict, d, request, [w] + ResolvedWrites(Apply(d, w), id, pause))
  {
    hide DurableOk, DShape, ShapedWrites, ShapedWrite, IdsBelow, TailClean, ResolvedWrites;
    ApplyOne(d, w);
    LedgerDurable(d, w, request);
    if DShape(strict, Apply(d, w), request) { ResolutionShaped(strict, Apply(d, w), id, pause, request); }
    LedgerFirst(strict, d, [w], ResolvedWrites(Apply(d, w), id, pause), request);
  }

  lemma {:induction false} AbandonEchoes(strict: bool, d: Durable, rows: seq<Attempt>, request: Request)
    requires (strict ==> EchoOk(d.ledger)) && forall r :: r in rows ==> r in d.ledger
    ensures forall w :: w in AbandonPuts(d.ledger, rows) ==> TouchesLedgerOnly(w) && ShapedWrite(strict, d, request, w)
    decreases |rows|
  {
    if rows != [] {
      assert rows[0] in rows;
      AbandonEchoes(strict, d, rows[1..], request);
      assert strict ==> EchoRow(rows[0]);
    }
  }

  lemma AbandonShaped(strict: bool, d: Durable, id: nat, request: Request)
    requires DurableOk(d, request) && DShape(strict, d, request) && !Torn(d) && IdsBelow(d.journal, id)
    ensures ShapedWrites(strict, d, request, AbandonWrites(d, id))
  {
    hide DurableOk, RunShape, Charged, SkipClean, RestoredShape, ShapedWrites, ShapedWrite, TouchesLedgerOnly, IdsBelow, TailClean, CanResume;
    var ws := AbandonWrites(d, id);
    if ws == [] {
      NoWrites(strict, d, request);
    } else {
      var first := AbandonPuts(d.ledger, d.ledger);
      AbandonEchoes(strict, d, d.ledger, request);
      LedgerWritesKeepRun(d, first);
      LedgerDurables(d, first, request);
      var d1 := ApplyAll(d, first);
      if DShape(strict, d1, request) { ResolutionShaped(strict, d1, id, d.snap.pause, request); }
      LedgerFirst(strict, d, first, ResolvedWrites(d1, id, d.snap.pause), request);
      AbandonIs(d, id);
    }
  }

  lemma AbandonIs(d: Durable, id: nat)
    requires d.snap.status == Paused && !CanResume(d.snap)
    ensures var first := AbandonPuts(d.ledger, d.ledger);
            ApplyAll(d, first).snap == d.snap && ApplyAll(d, first).journal == d.journal
            ==> AbandonWrites(d, id) == first + ResolvedWrites(ApplyAll(d, first), id, d.snap.pause)
  {
    hide CanResume, AbandonPuts;
    var e := Stamp(BareEvent(ExecutionResolved), id, |d.journal| + 1);
    assert Noted(d.snap, e).(pause := d.snap.pause) == Noted(d.snap, e);
  }

  lemma {:induction false} UnknownEchoes(strict: bool, d: Durable, rows: seq<Attempt>, request: Request)
    requires strict ==> EchoOk(rows)
    ensures forall w :: w in UnknownPuts(rows) ==> TouchesLedgerOnly(w) && ShapedWrite(strict, d, request, w)
    decreases |rows|
  {
    if rows != [] {
      assert strict ==> EchoRow(rows[0]);
      assert forall r :: r in rows[1..] ==> r in rows;
      UnknownEchoes(strict, d, rows[1..], request);
    }
  }

  /** What recovery restores from a running snapshot has the shape of the whole journal. */
  lemma RestoredAbreast(strict: bool, d: Durable, request: Request)
    requires DurableOk(d, request) && DShape(strict, d, request) && d.snap.status == Running
    ensures var run := Restore(d.snap, d.journal).0;
            && run.status != Paused && RunShape(strict, run, request)
            && Abreast(strict, d, Live(run, Loaded, false, {}), request)
  {
    hide RunShape, Charge, Faithful, InStep, EchoOk, JournalOk, Shape;
    var run, n, max := Restore(d.snap, d.journal).0, |d.journal|, request.maxToolRounds;
    assert Saved(d, d.snap);
    RestoredInStep(d, request);
    RestoredRunShape(strict, d, request);
    RestoredCharge(strict, d, request);
  }

  lemma RestoredRunShape(strict: bool, d: Durable, request: Request)
    requires DurableOk(d, request) && DShape(strict, d, request) && d.snap.status == Running
    ensures var run := Restore(d.snap, d.journal).0;
            && run.status != Paused && RunShape(strict, run, request)
            && Progress(run.steps) == AllProgress(d.journal)
            && run.remaining == RemainingFrom(d.journal, d.snap.applied, |d.journal|, d.snap.remaining)
  {
    hide Charged, SkipClean, Shape, EchoOk, JournalOk;
    var max := request.maxToolRounds;
    assert Saved(d, d.snap);
    FaithfulReplays(d, request);
    RestoreBuilds(d.snap, d.journal, max);
    CleanView(d.snap, d.journal, d.skipped, request);
    LastChatFrom(d.journal, Progress(d.snap.steps), d.snap.applied, |d.journal|, max);
    SnapResponse(strict, d.snap, request);
    RestoreStatus(d.snap, d.journal);
  }

  lemma FaithfulReplays(d: Durable, request: Request)
    requires DurableOk(d, request)
    ensures Replayable(d.snap, d.journal) && d.snap.request == request && Faithful(d.snap, d.journal, d.skipped, request)
  {
    assert Saved(d, d.snap);
  }

  lemma SnapResponse(strict: bool, run: Run, request: Request)
    requires RunShape(strict, run, request)
    ensures run.response == LastChat(Progress(run.steps))
  {
  }

  lemma RestoredCharge(strict: bool, d: Durable, request: Request)
    requires DurableOk(d, request) && DShape(strict, d, request) && d.snap.status == Running
    requires var run := Restore(d.snap, d.journal).0;
             && run.applied == |d.journal| && Progress(run.steps) == AllProgress(d.journal)
             && run.remaining == RemainingFrom(d.journal, d.snap.applied, |d.journal|, d.snap.remaining)
    ensures Charge(strict, d.journal, d.snap, Restore(d.snap, d.journal).0, request.maxToolRounds)
  {
    hide RunShape, SkipClean, Faithful, EchoOk, RestoredShape, JournalOk, Complete;
    var max, n := request.maxToolRounds, |d.journal|;
    assert Charged(strict, d, d.snap, max) && Saved(d, d.snap);
    StoredWithin(d, request);
    RemainingCompose(d.journal, 0, d.snap.applied, n, max);
    if strict && Complete(Progress(d.snap.steps)) && !Complete(AllProgress(d.journal)) {
      RestartedRound(d, request);
    }
  }

  /** A complete round is left behind only by a new response, whose own record replaces the rest. */
  lemma RestartedRound(d: Durable, request: Request)
    requires DurableOk(d, request) && Alive(d) && SkipClean(d.journal, d.skipped) && d.snap.applied <= |d.journal|
    requires Complete(Progress(d.snap.steps)) && !Complete(AllProgress(d.journal))
    ensures forall a, b :: RemainingFrom(d.journal, d.snap.applied, |d.journal|, a)
                           == RemainingFrom(d.journal, d.snap.applied, |d.journal|, b)
  {
    FaithfulReplays(d, request);
    CleanView(d.snap, d.journal, d.skipped, request);
    StillComplete(d.journal, Progress(d.snap.steps), d.snap.applied, |d.journal|, request.maxToolRounds);
  }

  lemma {:induction false} StillComplete(journal: seq<Event>, p: seq<Step>, from: nat, end: nat, max: nat)
    requires from <= end <= |journal| && JournalOk(journal, max) && Complete(p)
    ensures Complete(p + Kept(journal, from, end, {}))
            || forall a, b :: RemainingFrom(journal, from, end, a) == RemainingFrom(journal, from, end, b)
    decreases end
  {
    hide Complete;
    var kept := Kept(journal, from, end, {});
    if end == from {
      assert p + kept == p;
    } else {
      StillComplete(journal, p, from, end - 1, max);
      var e, q := journal[end - 1], p + Kept(journal, from, end - 1, {});
      assert EventOk(e, max);
      if e.kind != ChatCompleted {
        if IsProgressEvent(e) {
          assert p + kept == q + [ProgressOf(e).value];
          ToolKeepsComplete(q, ProgressOf(e).value);
        } else {
          assert p + kept == q;
        }
      }
      if !Complete(p + kept) {
        assert e.kind != ChatCompleted ==> !Complete(q);
        forall a: int, b: int ensures RemainingFrom(journal, from, end, a) == RemainingFrom(journal, from, end, b) {
          if e.kind != ChatCompleted {
            assert RemainingFrom(journal, from, end - 1, a) == RemainingFrom(journal, from, end - 1, b);
          }
        }
      }
    }
  }

  lemma ToolKeepsComplete(p: seq<Step>, s: Step)
    requires IsToolStep(s)
    ensures Complete(p) ==> Complete(p + [s])
  {
    PushTool(p, s);
  }

  lemma SuspendShaped(strict: bool, d: Durable, id: nat, cause: PauseCause, request: Request)
    requires DurableOk(d, request) && DShape(strict, d, request) && IdsBelow(d.journal, id)
    ensures ShapedWrites(strict, d, request, SuspendWrites(d, id, cause))
  {
    hide DurableOk, RunShape, Charged, SkipClean, RestoredShape, ShapedWrites, ShapedWrite, TouchesLedgerOnly, IdsBelow, Inspect;
    if d.snap.status == Running {
      var first := UnknownPuts(d.ledger);
      UnknownEchoes(strict, d, d.ledger, request);
      LedgerWritesKeepRun(d, first);
      LedgerDurables(d, first, request);
      var d1 := ApplyAll(d, first);
      if DShape(strict, d1, request) { SuspendTailShaped(strict, d1, id, cause, request); }
      SuspendSplit(d, id, cause);
      LedgerFirst(strict, d, first, SuspendTail(d1, id, cause), request);
    } else {
      NoWrites(strict, d, request);
    }
  }

  lemma SuspendTailShaped(strict: bool, d: Durable, id: nat, cause: PauseCause, request: Request)
    requires DurableOk(d, request) && DShape(strict, d, request) && IdsBelow(d.journal, id) && d.snap.status == Running
    ensures ShapedWrites(strict, d, request, SuspendTail(d, id, cause))
  {
    hide DurableOk, DShape, RunShape, ShapedWrites, ShapedWrite, IdsBelow, Inspect, Restore, Abreast, Noted, Jumped, Range;
    RestoredAbreast(strict, d, request);
    InspectRestores(d.snap, d.journal, Some(d.ledger));
    var (run, eligible, checkpoint) := Inspect(d.snap, d.journal, Some(d.ledger));
    var c := Live(run, Loaded, false, {});
    if run.status != Running {
      SaveAbreastOne(strict, d, c, request);
    } else {
      PausedRecoveryShaped(strict, d, c, id, Pause(cause, checkpoint, eligible), request);
    }
  }

  lemma SaveAbreastOne(strict: bool, d: Durable, c: Live, request: Request)
    requires Abreast(strict, d, c, request)
    ensures ShapedWrites(strict, d, request, [Save(c.run, c.jumped)])
  {
    hide DurableOk, DShape, RunShape, ShapedWrite, ShapedWrites, InStep, Charge;
    SaveAbreast(strict, d, c, c.run, request);
    ShapedOne(strict, d, request, Save(c.run, c.jumped));
  }

  lemma PausedRecoveryShaped(strict: bool, d: Durable, c: Live, id: nat, pause: Pause, request: Request)
    requires Abreast(strict, d, c, request) && IdsBelow(d.journal, id) && c.jumped == {}
    ensures var e := Stamp(BareEvent(RunPaused), id, |d.journal| + 1);
            var paused := Noted(c.run, e).(status := Paused, stop := None, pause := Some(pause));
            ShapedWrites(strict, d, request, [Append(e), Save(paused, Range(c.run.applied, |d.journal|))])
  {
    hide DurableOk, DShape, RunShape, ShapedWrites, InStep, Charge, Carries, NextEvent, IdsBelow;
    var e := Stamp(BareEvent(RunPaused), id, |d.journal| + 1);
    var paused := Noted(c.run, e).(status := Paused, stop := None, pause := Some(pause));
    SameRunShape(strict, c.run, paused, request);
    QuietCarries(d, c.run, e, id, request);
    NoteAndSaveShaped(strict, d, c, c.run, e, paused, request);
    assert Jumped(d, c) == Range(c.run.applied, |d.journal|);
  }

  lemma PauseRequestShaped(strict: bool, d: Durable, request: Request)
    requires DurableOk(d, request) && DShape(strict, d, request) && d.snap.status == Running
    ensures ShapedWrites(strict, d, request, [Save(d.snap.(pauseRequest := true), {})])
  {
    hide RunShape, Faithful, JournalOk, SkipClean, EchoOk, Shape, Undiminished;
    var run := d.snap.(pauseRequest := true);
    SnapShape(strict, d, request);
    SameRunShape(strict, d.snap, run, request);
    assert Charged(strict, d, d.snap, request.maxToolRounds) by { assert Saved(d, d.snap); }
    ChargeSame(strict, d.journal, d.snap, d.snap, run, request.maxToolRounds);
    SameRestored(strict, d.snap, run, d.journal, request.maxToolRounds);
    assert d.skipped + {} == d.skipped;
    ShapedOne(strict, d, request, Save(run, {}));
  }

  // ----------------------------------------------------------------------- worlds

  ghost predicate WorldShape(strict: bool, w: World, request: Request) {
    DShape(strict, w.d, request)
    && forall c :: c in w.copies ==> CopyShape(strict, w.d, c, request) && (c.yielded ==> !c.pc.Loaded?)
  }

  lemma ReadyCopy(strict: bool, w: World, i: nat, request: Request)
    requires WorldInStep(w, request) && WorldShape(strict, w, request) && i < |w.copies|
    ensures Ready(strict, w.d, w.copies[i], w.nextId, request)
    ensures w.copies[i].yielded ==> !w.copies[i].pc.Loaded?
  {
    hide DurableOk, DShape, CopyShape, LiveOk, IdsBelow;
    assert w.copies[i] in w.copies;
  }

  lemma ControlShaped(strict: bool, w: World, runId: string, op: Op, request: Request)
    requires DurableOk(w.d, request) && DShape(strict, w.d, request) && !Torn(w.d) && IdsBelow(w.d.journal, w.nextId)
    requires !op.Act?
    ensures ShapedWrites(strict, w.d, request, OpWrites(w, runId, op))
  {
    hide DurableOk, DShape, Torn, IdsBelow, ShapedWrites, CancelWrites, MarkFailedWrites, ResolveWrites, AbandonWrites, SuspendWrites;
    var d, id := w.d, w.nextId;
    NoWrites(strict, d, request);
    match op
    case Load =>
    case RequestPause => if d.snap.status == Running { PauseRequestShaped(strict, d, request); }
    case Cancel => CancelShaped(strict, d, id, request);
    case ResolveExecution(call, number, confirmed) => ResolveShaped(strict, d, id, call, number, confirmed, request);
    case Abandon => AbandonShaped(strict, d, id, request);
    case MarkFailed => MarkFailedShaped(strict, d, id, request);
    case Suspend(cause, _) => SuspendShaped(strict, d, id, cause, request);
  }

  lemma OpShaped(strict: bool, w: World, runId: string, op: Op, request: Request)
    requires WorldInStep(w, request) && WorldShape(strict, w, request) && !Torn(w.d) && (strict ==> Sane(w, op))
    ensures ShapedWrites(strict, w.d, request, OpWrites(w, runId, op))
    ensures op.Act? && op.copy < |w.copies| ==>
              ShapedSegment(strict, w.d, request, ActSegment(w.d, w.copies[op.copy], w.nextId, runId, op.action))
  {
    hide DurableOk, DShape, Torn, IdsBelow, ShapedWrites, ActSegment, LiveOk, CopyShape, Ready, GoodReply;
    if op.Act? {
      if op.copy < |w.copies| {
        ReadyCopy(strict, w, op.copy, request);
        ActShaped(strict, w.d, w.copies[op.copy], w.nextId, runId, op.action, request);
      } else {
        NoWrites(strict, w.d, request);
      }
    } else {
      ControlShaped(strict, w, runId, op, request);
    }
  }

  lemma LoadedShape(strict: bool, d: Durable, request: Request)
    requires DurableOk(d, request) && DShape(strict, d, request) && !Torn(d)
    ensures CopyShape(strict, d, Stored(d), request)
  {
    hide RunShape, Faithful, JournalOk, EchoOk, Undiminished, RestoredShape;
    SnapShape(strict, d, request);
    assert Saved(d, d.snap);
    if d.snap.status == Paused {
      StoredAbreast(strict, d, request);
      AbreastView(strict, d, Stored(d), request);
    }
    if Alive(d) { assert Charged(strict, d, d.snap, request.maxToolRounds); }
  }

  /** A pause request or a cancel leaves a running copy as it is. */
  lemma CopySurvives(strict: bool, d: Durable, c: Live, id: nat, request: Request)
    requires DurableOk(d, request) && DShape(strict, d, request) && CopyShape(strict, d, c, request)
    ensures CopyShape(strict, ApplyAll(d, CancelWrites(d, id)), c, request)
    ensures d.snap.status == Running ==> CopyShape(strict, Apply(d, Save(d.snap.(pauseRequest := true), {})), c, request)
  {
    hide RunShape, PcShape, DurableOk, DShape, RestoredShape, SkipClean, TailClean, Undiminished;
    var ws := CancelWrites(d, id);
    if ws != [] {
      assert ws == [ws[0], ws[1]];
      ApplyTwo(d, ws[0], ws[1]);
    }
  }

  lemma CopiesShaped(strict: bool, w: World, runId: string, op: Op, request: Request)
    requires WorldInStep(w, request) && WorldShape(strict, w, request) && Alone(w, op) && !Torn(w.d) && (strict ==> Sane(w, op))
    ensures forall c :: c in OpCopies(w, runId, op) ==>
              CopyShape(strict, ApplyAll(w.d, OpWrites(w, runId, op)), c, request) && (c.yielded ==> !c.pc.Loaded?)
  {
    hide DurableOk, DShape, CopyShape, Torn, IdsBelow, LiveOk, ActSegment, ShapedWrites, Sane, CancelWrites;
    var d := w.d;
    match op
    case Load => LoadedShape(strict, d, request);
    case RequestPause =>
      forall c | c in w.copies ensures CopyShape(strict, ApplyAll(d, OpWrites(w, runId, op)), c, request) {
        CopySurvives(strict, d, c, w.nextId, request);
        ApplyOne(d, Save(d.snap.(pauseRequest := true), {}));
      }
    case Cancel =>
      forall c | c in w.copies ensures CopyShape(strict, ApplyAll(d, OpWrites(w, runId, op)), c, request) {
        CopySurvives(strict, d, c, w.nextId, request);
      }
    case Act(i, action) =>
      if i < |w.copies| {
        OpShaped(strict, w, runId, op, request);
        YieldedIsNotLoaded(d, w.copies[i], w.nextId, runId, action);
        assert |w.copies| == 1;
      }
    case _ =>
  }

  lemma StepShapes(strict: bool, w: World, runId: string, step: Label, request: Request)
    requires WorldInStep(w, request) && WorldShape(strict, w, request) && Alone(w, step.op) && !Torn(w.d)
    requires strict ==> Sane(w, step.op)
    ensures WorldShape(strict, Next(w, runId, step), request)
  {
    hide DurableOk, DShape, CopyShape, Torn, IdsBelow, LiveOk, Sane, OpWrites, OpCopies, Surviving, GoodWrites, ShapedWrites, Alone;
    var ws := OpWrites(w, runId, step.op);
    WritesGood(w, runId, step.op, request);
    OpShaped(strict, w, runId, step.op, request);
    SurvivingIsPrefix(ws, step);
    var k :| 0 <= k <= |ws| && Surviving(ws, step) == ws[..k];
    WritesShape(strict, w.d, request, w.nextId + 2, ws, k);
    if step.cut == None { CopiesShaped(strict, w, runId, step.op, request); }
  }

  lemma StartShapes(strict: bool, request: Request)
    ensures WorldShape(strict, StartWorld(request), request)
  {
    var d := StartWorld(request).d;
    assert AllProgress(d.journal) == [];
  }

  lemma {:induction false} RunsShape(strict: bool, ws: seq<World>, request: Request, runId: string, steps: seq<Label>, k: nat)
    requires UntornRun(ws, request, runId, steps) && (strict ==> SaneRun(ws, steps)) && k < |ws|
    ensures WorldShape(strict, ws[k], request) && WorldInStep(ws[k], request)
    decreases k
  {
    hide WorldInStep, WorldShape, Next, Alone, Sane, Torn;
    RunsInStep(ws, request, runId, steps, k);
    if k > 0 {
      RunsShape(strict, ws, request, runId, steps, k - 1);
      StepShapes(strict, ws[k - 1], runId, steps[k - 1], request);
    } else {
      StartShapes(strict, request);
    }
  }

  // ------------------------------------------------------------------ main results

  /** In untorn runs the budget bounds the journal too: at most max_tool_rounds + 1 responses are
      ever appended to it. */
  lemma JournalStaysInBudget(ws: seq<World>, request: Request, runId: string, steps: seq<Label>, k: nat)
    requires UntornRun(ws, request, runId, steps) && k < |ws|
    ensures Round(AllProgress(ws[k].d.journal)) <= request.maxToolRounds + 1
  {
    hide WorldInStep, Charged, RestoredShape, EchoOk, SkipClean, CopyShape;
    RunsShape(false, ws, request, runId, steps, k);
  }

  /** In an untorn run that has not stopped, replay agrees with no exception: restoring any
      snapshot ever saved gives the progress and the response of the run at the end of the
      journal, and at least its rounds left; for sane inputs exactly its rounds left, unless
      its current round is complete and the follow-up response is still missing. */
  lemma UntornReplayAgrees(strict: bool, ws: seq<World>, request: Request, runId: string, steps: seq<Label>, k: nat, live: Live, s: Run)
    requires UntornRun(ws, request, runId, steps) && (strict ==> SaneRun(ws, steps)) && k < |ws|
    requires Current(ws[k], live) && Saved(ws[k].d, s) && Alive(ws[k].d)
    ensures var (restored, error) := Restore(s, ws[k].d.journal);
            && error == None
            && Progress(restored.steps) == Progress(live.run.steps)
            && restored.response == live.run.response
            && live.run.remaining <= restored.remaining
            && (strict && !RoundComplete(live.run) ==> live.run.remaining == restored.remaining)
  {
    hide UntornRun, SaneRun, DurableOk, CopyShape, DShape, LiveOk, Faithful, RoundComplete, Restore, NoOrphan, JumpOk;
    RunsShape(strict, ws, request, runId, steps, k);
    var d := ws[k].d;
    StoredInStep(d, request);
    CurrentIsClean(strict, ws[k], live, request);
    RestoredAgrees(d, live, s, request);
    RemainingAgrees(strict, d, live, s, request);
  }

  lemma CurrentIsClean(strict: bool, w: World, live: Live, request: Request)
    requires WorldInStep(w, request) && WorldShape(strict, w, request) && Current(w, live) && Alive(w.d)
    ensures InStep(w.d, live, request) && Abreast(strict, w.d, live, request)
    ensures forall from: nat :: NoOrphan(w.d, live, from)
  {
    hide DurableOk, RunShape, PcShape, Faithful, RestoredShape, EchoOk, JumpOk, Undiminished, TailClean;
    StoredInStep(w.d, request);
    SnapShape(strict, w.d, request);
    assert Saved(w.d, w.d.snap);
    assert Charged(strict, w.d, w.d.snap, request.maxToolRounds);
    AtTheEnd(w.d, live);
    AllClean(w.d, live);
  }

  lemma AtTheEnd(d: Durable, live: Live)
    requires live.run.applied == |d.journal|
    ensures TailClean(d.journal, live.run.applied)
  {
  }

  lemma AllClean(d: Durable, live: Live)
    ensures SkipClean(d.journal, d.skipped) && SkipClean(d.journal, live.jumped) ==> forall from: nat :: NoOrphan(d, live, from)
  {
  }

  lemma RemainingAgrees(strict: bool, d: Durable, live: Live, s: Run, request: Request)
    requires Abreast(strict, d, live, request) && live.run.applied == |d.journal| && Saved(d, s)
    ensures var restored := Restore(s, d.journal).0;
            && live.run.remaining <= restored.remaining
            && (strict && !RoundComplete(live.run) ==> live.run.remaining == restored.remaining)
  {
    hide RunShape, Charge, Faithful, EchoOk, RestoredShape, JournalOk, Complete, Undiminished, JumpOk, RoundComplete, Restore, Replayable;
    var max := request.maxToolRounds;
    assert Charged(strict, d, s, max);
    SavedReplays(d, s, request);
    RestoreBuilds(s, d.journal, max);
    ChargeCompose(strict, d.journal, s, d.snap, live.run, max);
    ChargeBounds(strict, d.journal, s, live.run, max);
    if strict && !RoundComplete(live.run) {
      CompleteMeans(live.run, request);
      NeverDiminished(d, live, s, request);
    }
  }

  lemma ChargeBounds(strict: bool, journal: seq<Event>, before: Run, run: Run, max: nat)
    requires Charge(strict, journal, before, run, max)
    ensures before.applied <= run.applied <= |journal|
    ensures run.remaining <= RemainingFrom(journal, before.applied, run.applied, before.remaining)
    ensures Undiminished(strict, journal, run, max)
  {
  }

  lemma CompleteMeans(run: Run, request: Request)
    requires RunShape(true, run, request)
    ensures RoundComplete(run) <==> Complete(Progress(run.steps))
  {
    hide InProtocol, LastChat, Pending, CompletedIds, IncompleteCalls, Progress;
    ProgressCounts(run.steps);
    IncompleteIsPending(Progress(run.steps));
  }

  lemma NeverDiminished(d: Durable, live: Live, s: Run, request: Request)
    requires Abreast(true, d, live, request) && live.run.applied == |d.journal| && Saved(d, s)
    requires !Complete(Progress(live.run.steps))
    ensures live.run.remaining == RemainingFrom(d.journal, s.applied, |d.journal|, s.remaining)
  {
    hide RunShape, EchoOk, RestoredShape, JournalOk, Complete, JumpOk, Faithful;
    var n, max := |d.journal|, request.maxToolRounds;
    AbreastView(true, d, live, request);
    SavedReplays(d, s, request);
    assert Charged(true, d, s, max) && s.applied <= n;
    RemainingCompose(d.journal, 0, s.applied, n, max);
    if Complete(Progress(s.steps)) {
      CleanView(s, d.journal, d.skipped, request);
      StillComplete(d.journal, Progress(s.steps), s.applied, n, max);
    }
  }

  // -------------------------------------------------------------- where it fails

  /** A torn run that is resumed orphans what the crash cut off: once the resumed copy persists
      its first event, restoring the old snapshot no longer agrees with it. */
  lemma TornResumeDisagrees(d: Durable, live: Live, run: Run, e: Event, id: nat, pc: Pc, request: Request)
    requires DurableOk(d, request) && Torn(d) && IdsBelow(d.journal, id)
    requires LiveOk(d, live, request) && live.run.applied == d.snap.applied && live.jumped == {} && run.status != Canceled
    requires EventOk(Stamp(e, id, 1), request.maxToolRounds) && Carries(live.run, run, Stamp(e, id, 1))
    requires PcOk(run, pc)
    ensures var seg := Persist(d, live, run, e, id, pc);
            var after := ApplyAll(d, seg.writes);
            && seg.next.Some? && Saved(after, d.snap)
            && Progress(Restore(d.snap, after.journal).0.steps) != Progress(seg.next.value.run.steps)
  {
    hide GoodSegment, Faithful, JournalOk, EventOk, Carries, Restore, Progress, StepIds, NoOrphan;
    var seg := Persist(d, live, run, e, id, pc);
    var after := ApplyAll(d, seg.writes);
    PersistGood(d, live, run, e, id, pc, request);
    TornPersist(d, live, run, e, id, pc, request);
    RestoredAgrees(after, seg.next.value, d.snap, request);
  }

  lemma TornPersist(d: Durable, live: Live, run: Run, e: Event, id: nat, pc: Pc, request: Request)
    requires DurableOk(d, request) && Torn(d) && IdsBelow(d.journal, id)
    requires LiveOk(d, live, request) && live.run.applied == d.snap.applied && live.jumped == {} && run.status != Canceled
    requires GoodSegment(d, request, id + 2, Persist(d, live, run, e, id, pc))
    ensures var seg := Persist(d, live, run, e, id, pc);
            var after := ApplyAll(d, seg.writes);
            && seg.next.Some? && Saved(after, d.snap) && DurableOk(after, request) && InStep(after, seg.next.value, request)
            && seg.next.value.run.applied == |after.journal|
            && !NoOrphan(after, seg.next.value, d.snap.applied)
  {
    hide GoodWrites, Faithful, JournalOk, DurableOk, JumpOk;
    var seg := Persist(d, live, run, e, id, pc);
    var n, jumped := |d.journal|, Jumped(d, live);
    var stamped := Stamp(e, id, n + 1);
    var noted := Noted(run, stamped);
    ApplyTwo(d, Append(stamped), Save(noted, jumped));
    var i :| d.snap.applied <= i < n && IsProgressEvent(d.journal[i]);
    assert (d.journal + [stamped])[i] == d.journal[i] && i in jumped;
    IdsStayBelow(d.journal, id);
    assert seg.writes[..2] == seg.writes;
    GoodWritesKeep(d, request, id + 2, seg.writes, 2);
  }

  lemma IdsStayBelow(journal: seq<Event>, id: nat)
    requires IdsBelow(journal, id)
    ensures IdsBelow(journal, id + 2)
  {
  }

}
