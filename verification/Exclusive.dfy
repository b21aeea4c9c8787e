/** Runs with one execution at a time stay in step with their journal, wherever a crash cuts
    an operation short; and then restoring any earlier snapshot agrees with the live copy. */
module Exclusive {
  import opened Wrappers
  import opened Content
  import opened Runs
  import opened Recovery
  import opened Ledger
  import opened Machine
  import opened Safety
  import opened Agreement
  import opened Replaying

  /** One executor per run: a copy is loaded, and recovery, failure marking and operator
      resolution run, only while no other copy lives. Pause and cancel requests come any time. */
  predicate Alone(w: World, op: Op) {
    op.Load? || op.Suspend? || op.MarkFailed? || op.ResolveExecution? || op.Abandon? ==> w.copies == []
  }

  ghost predicate ExclusiveRun(ws: seq<World>, request: Request, runId: string, steps: seq<Label>) {
    && IsRun(ws, request, runId, steps)
    && forall i {:trigger steps[i]} :: 0 <= i < |steps| ==> Alone(ws[i], steps[i].op)
  }

  // -------------------------------------------------------- changes made in memory

  /** A change that records no new progress: at most rounds are given up. */
  ghost predicate Reshaped(a: Run, b: Run) {
    && b.request == a.request && b.applied == a.applied && b.trace == a.trace && b.response == a.response
    && Progress(b.steps) == Progress(a.steps) && StepIds(b.steps) <= StepIds(a.steps)
    && 0 <= b.remaining <= a.remaining
    && (b.response == None ==> b.remaining == a.remaining)
  }

  lemma ReshapedInStep(d: Durable, live: Live, next: Live, request: Request)
    requires LiveOk(d, live, request) && Reshaped(live.run, next.run) && next.jumped == live.jumped
    requires PcOk(next.run, next.pc)
    ensures GoodSegment(d, request, 0, Segment([], Some(next)))
  {
  }

  lemma {:induction false} WiderBound(d: Durable, request: Request, low: nat, high: nat, ws: seq<Write>)
    requires low <= high && GoodWrites(d, request, low, ws)
    ensures GoodWrites(d, request, high, ws)
    decreases |ws|
  {
    if ws != [] { WiderBound(Apply(d, ws[0]), request, low, high, ws[1..]); }
  }

  lemma SilentGood(d: Durable, live: Live, next: Live, request: Request, bound: nat)
    requires LiveOk(d, live, request) && Reshaped(live.run, next.run) && next.jumped == live.jumped
    requires PcOk(next.run, next.pc)
    ensures GoodSegment(d, request, bound, Segment([], Some(next)))
  {
    ReshapedInStep(d, live, next, request);
  }

  // ---------------------------------------------------------------- saving and failing

  lemma SavedGood(d: Durable, live: Live, request: Request, bound: nat)
    requires DurableOk(d, request) && InStep(d, live, request)
    ensures GoodWrites(d, request, bound, [Save(live.run, live.jumped)])
    ensures GoodWrites(d, request, bound, [Save(live.run, live.jumped), Save(live.run, live.jumped)])
  {
    SaveGood(d, live, request, bound);
    SaveTwiceGood(d, live, request, bound);
  }

  /** Appending a stop or pause event and saving a run that notes it. */
  lemma NoteAndSaveGood(d: Durable, live: Live, e: Event, run: Run, request: Request, bound: nat)
    requires DurableOk(d, request) && InStep(d, live, request)
    requires NextEvent(d.journal, e, request.maxToolRounds) && e.id.value < bound && !IsProgressEvent(e)
    requires e.kind != ChatCompleted && SameCore(run, Noted(live.run, e))
    ensures var ws := [Append(e), Save(run, Jumped(d, live))];
            && GoodWrites(d, request, bound, ws)
            && forall pc, yielded :: InStep(ApplyAll(d, ws), Live(run, pc, yielded, Jumped(d, live)), request)
  {
    AppendGood(d, live, live.run, e, request, bound);
    var d1 := Apply(d, Append(e));
    var noted, next := Live(Noted(live.run, e), Ended, false, Jumped(d, live)), Live(run, Ended, false, Jumped(d, live));
    CoreInStep(d1, noted, next, request);
    SaveGood(d1, next, request, bound);
    GoodCons(d, request, bound, Append(e), [Save(run, Jumped(d, live))]);
    assert [Append(e)] + [Save(run, Jumped(d, live))] == [Append(e), Save(run, Jumped(d, live))];
    var after := ApplyAll(d, [Append(e), Save(run, Jumped(d, live))]);
    forall pc, yielded ensures InStep(after, Live(run, pc, yielded, Jumped(d, live)), request) {
      CoreInStep(after, next, Live(run, pc, yielded, Jumped(d, live)), request);
    }
  }

  lemma FailGood(d: Durable, live: Live, id: nat, request: Request)
    requires DurableOk(d, request) && LiveOk(d, live, request) && IdsBelow(d.journal, id)
    ensures GoodWrites(d, request, id + 2, FailWrites(d, live, id))
  {
    hide Faithful, JournalOk, Spent;
    if d.snap.status != Canceled {
      SavedGood(d, live, request, id + 2);
      if live.run.status == Running { FailRunningGood(d, live, id, request); }
    }
  }

  lemma FailRunningGood(d: Durable, live: Live, id: nat, request: Request)
    requires DurableOk(d, request) && InStep(d, live, request) && IdsBelow(d.journal, id)
    ensures var e := Stamp(StopEvent(FailedText), id, |d.journal| + 1);
            GoodWrites(d, request, id + 2,
                       [Save(live.run, live.jumped), Append(e), Save(FailedBy(live.run, e), Jumped(d, live))])
  {
    hide Faithful, JournalOk, Spent;
    var e := Stamp(StopEvent(FailedText), id, |d.journal| + 1);
    var save := Save(live.run, live.jumped);
    SavedStaysInStep(d, live, request);
    FailNotesGood(Apply(d, save), live, id, request);
    SaveFirstGood(d, live, [Append(e), Save(FailedBy(live.run, e), Jumped(Apply(d, save), live))], request, id + 2);
    FailWritesSplit(d, live, e);
  }

  lemma SaveFirstGood(d: Durable, live: Live, ws: seq<Write>, request: Request, bound: nat)
    requires DurableOk(d, request) && InStep(d, live, request)
    requires GoodWrites(Apply(d, Save(live.run, live.jumped)), request, bound, ws)
    ensures GoodWrites(d, request, bound, [Save(live.run, live.jumped)] + ws)
  {
    GoodCons(d, request, bound, Save(live.run, live.jumped), ws);
  }

  lemma SavedStaysInStep(d: Durable, live: Live, request: Request)
    requires DurableOk(d, request) && InStep(d, live, request)
    ensures DurableOk(Apply(d, Save(live.run, live.jumped)), request)
    ensures InStep(Apply(d, Save(live.run, live.jumped)), live, request)
  {
    SaveGood(d, live, request, 0);
  }

  lemma FailWritesSplit(d: Durable, live: Live, e: Event)
    ensures var save := Save(live.run, live.jumped);
            [save] + [Append(e), Save(FailedBy(live.run, e), Jumped(Apply(d, save), live))]
            == [save, Append(e), Save(FailedBy(live.run, e), Jumped(d, live))]
  {
  }

  lemma FailNotesGood(d: Durable, live: Live, id: nat, request: Request)
    requires DurableOk(d, request) && InStep(d, live, request) && IdsBelow(d.journal, id)
    ensures var e := Stamp(StopEvent(FailedText), id, |d.journal| + 1);
            GoodWrites(d, request, id + 2, [Append(e), Save(FailedBy(live.run, e), Jumped(d, live))])
  {
    var e := Stamp(StopEvent(FailedText), id, |d.journal| + 1);
    NoteAndSaveGood(d, live, e, FailedBy(live.run, e), request, id + 2);
  }

  lemma FinallyGood(d: Durable, live: Live, request: Request, bound: nat)
    requires DurableOk(d, request) && LiveOk(d, live, request)
    ensures GoodWrites(d, request, bound, FinallyWrites(d, live))
  {
    if d.snap.status != Canceled { SavedGood(d, live, request, bound); }
  }

  // ------------------------------------------------------------------ segments

  /** An action that does not fit where the execution stands does nothing. */
  lemma IdleGood(d: Durable, live: Live, request: Request, bound: nat)
    requires LiveOk(d, live, request)
    ensures GoodSegment(d, request, bound, Segment([], Some(live)))
  {
  }

  lemma ResumeGood(d: Durable, live: Live, request: Request, bound: nat)
    requires LiveOk(d, live, request) && Resume(live).Some?
    requires d.snap.status != Canceled
    ensures GoodSegment(d, request, bound, Segment([], Resume(live)))
  {
    SilentGood(d, live, Resume(live).value, request, bound);
  }

  lemma OpeningGood(d: Durable, live: Live, id: nat, action: Action, request: Request)
    requires DurableOk(d, request) && LiveOk(d, live, request) && IdsBelow(d.journal, id)
    requires d.snap.status != Canceled
    ensures GoodSegment(d, request, id + 2, OpeningSegment(d, live, id, action))
  {
    hide DurableOk, LiveOk, IdsBelow, Persist, FailWrites, Resume, GoodWrites, Responded, ChatEvent;
    IdleGood(d, live, request, id + 2);
    match action
    case Begin =>
      if live.pc == Loaded {
        if Resume(live) == None { FailGood(d, live, id, request); } else { ResumeGood(d, live, request, id + 2); }
      }
    case StartRun =>
      if live.pc == Fresh { StartGood(d, live, id, request); }
    case Delta(_) =>
      if live.pc.Chatting? { DeltaGood(d, live, id, request); }
    case Respond(response) =>
      if live.pc.Chatting? { RespondGood(d, live, id, response, request); }
    case _ =>
  }

  lemma StartGood(d: Durable, live: Live, id: nat, request: Request)
    requires DurableOk(d, request) && LiveOk(d, live, request) && IdsBelow(d.journal, id)
    requires d.snap.status != Canceled && live.pc == Fresh
    ensures GoodSegment(d, request, id + 2, OpeningSegment(d, live, id, StartRun))
  {
    var s := BareStep(StartStep).(eventId := Some(id));
    ProgressPush(live.run.steps, s);
    PersistGood(d, live, live.run.(steps := live.run.steps + [s]), BareEvent(RunStarted), id,
                Chatting(live.run.request.maxToolRounds), request);
  }

  lemma DeltaGood(d: Durable, live: Live, id: nat, request: Request)
    requires DurableOk(d, request) && LiveOk(d, live, request) && IdsBelow(d.journal, id)
    requires d.snap.status != Canceled && live.pc.Chatting?
    ensures GoodSegment(d, request, id + 2, OpeningSegment(d, live, id, Delta("")))
    ensures forall text :: OpeningSegment(d, live, id, Delta(text)) == OpeningSegment(d, live, id, Delta(""))
  {
    hide Faithful, JournalOk, Spent;
    var e := Stamp(BareEvent(ChatDelta), id, |d.journal| + 1);
    AppendGood(d, live, live.run, e, request, id + 2);
    ApplyOne(d, Append(e));
    GoodCons(d, request, id + 2, Append(e), []);
    assert [Append(e)] + [] == [Append(e)];
  }

  lemma RespondGood(d: Durable, live: Live, id: nat, response: Response, request: Request)
    requires DurableOk(d, request) && LiveOk(d, live, request) && IdsBelow(d.journal, id)
    requires d.snap.status != Canceled && live.pc.Chatting?
    ensures GoodSegment(d, request, id + 2, OpeningSegment(d, live, id, Respond(response)))
  {
    var run := Responded(live.run, response, id);
    ProgressPush(live.run.steps, run.steps[|live.run.steps|]);
    PersistGood(d, live, run, ChatEvent(live.run, response), id, Calling(response.message.calls, live.pc.left), request);
  }

  /** An event that changes nothing but the steps' ids, or the record of a pause. */
  lemma NotedGood(d: Durable, live: Live, run: Run, e: Event, id: nat, pc: Pc, request: Request)
    requires DurableOk(d, request) && LiveOk(d, live, request) && IdsBelow(d.journal, id)
    requires d.snap.status != Canceled && PcOk(run, pc)
    requires !IsProgressEvent(e) && e.kind !in {ChatCompleted, ToolCompleted, ToolFailed}
    requires e.kind == RunStopped ==> e.stop != OtherText
    requires && run.request == live.run.request && run.applied == live.run.applied && run.trace == live.run.trace
             && run.remaining == live.run.remaining && run.response == live.run.response
    requires Progress(run.steps) == Progress(live.run.steps) && StepIds(run.steps) <= StepIds(live.run.steps) + {id}
    ensures GoodSegment(d, request, id + 2, Persist(d, live, run, e, id, pc))
  {
    PersistGood(d, live, run, e, id, pc, request);
  }

  lemma RecordGood(d: Durable, live: Live, e: Event, id: nat, rest: seq<ToolCall>, left: int, request: Request)
    requires DurableOk(d, request) && LiveOk(d, live, request) && IdsBelow(d.journal, id)
    requires d.snap.status != Canceled && e.kind in {ToolCompleted, ToolFailed} && e.call.Some?
    requires left == live.run.remaining && left > 0 && live.run.response.Some?
    ensures GoodSegment(d, request, id + 2, RecordTool(d, live, e, id, rest, left))
  {
    var run := live.run;
    var s := ProgressOf(e).value.(eventId := Some(id));
    ProgressPush(run.steps, s);
    var next := if e.kind == ToolFailed && !run.request.recoverToolErrors then Broken(left)
                else if rest == [] then RoundDone(left) else Calling(rest, left);
    assert ProgressOf(Stamp(e, id, 1)) == ProgressOf(e);
    PersistGood(d, live, run.(steps := run.steps + [s]), e, id, next, request);
  }

  lemma EnteredGood(d: Durable, live: Live, pc: Pc, request: Request)
    requires LiveOk(d, live, request) && d.snap.status != Canceled && live.pc.Calling?
    requires PcOk(live.run, pc)
    ensures var next := Live(Enter(live.run, live.pc.left), pc, false, live.jumped);
            LiveOk(d, next, request) && Reshaped(live.run, next.run)
  {
  }

  lemma RejectGood(d: Durable, live: Live, id: nat, call: ToolCall, error: string, request: Request)
    requires DurableOk(d, request) && LiveOk(d, live, request) && IdsBelow(d.journal, id)
    requires d.snap.status != Canceled && CanCall(live.pc, call)
    ensures GoodSegment(d, request, id + 2, CallSegment(d, live, id, RejectTool(call, error)))
  {
    hide DurableOk, Faithful, JumpOk, IdsBelow, GoodSegment, RecordTool;
    EnteredGood(d, live, live.pc, request);
    RecordGood(d, live.(run := Enter(live.run, live.pc.left)), ErrorEvent(call, error), id, live.pc.calls[1..], live.pc.left, request);
  }

  lemma BeginCallGood(d: Durable, live: Live, id: nat, call: ToolCall, request: Request)
    requires DurableOk(d, request) && LiveOk(d, live, request) && IdsBelow(d.journal, id)
    requires d.snap.status != Canceled && CanCall(live.pc, call)
    ensures GoodSegment(d, request, id + 2, CallSegment(d, live, id, StartTool(call)))
    ensures GoodSegment(d, request, id + 2, CallSegment(d, live, id, SkipStart(call)))
  {
    hide DurableOk, Faithful, JumpOk, IdsBelow, GoodSegment, Touch, Progress, StepIds;
    var run, left, rest := live.run, live.pc.left, live.pc.calls[1..];
    var entered := Enter(run, left);
    TouchKeeps(run.steps, ToolStep, id);
    NotedGood(d, live, entered.(steps := Touch(run.steps, ToolStep, id)),
              BareEvent(ToolStarted).(call := Some(call)), id, Executing(call, rest, left), request);
    EnteredGood(d, live, live.pc, request);
    SilentGood(d, live, Live(entered, Executing(call, rest, left), false, live.jumped), request, id + 2);
  }

  lemma AskGood(d: Durable, live: Live, id: nat, call: ToolCall, approval: Option<string>, request: Request)
    requires DurableOk(d, request) && LiveOk(d, live, request) && IdsBelow(d.journal, id)
    requires d.snap.status != Canceled && CanCall(live.pc, call)
    ensures GoodSegment(d, request, id + 2, CallSegment(d, live, id, AskApproval(call, approval)))
    ensures GoodSegment(d, request, id + 2, CallSegment(d, live, id, DecideApproval(call)))
  {
    hide DurableOk, Faithful, JumpOk, IdsBelow, GoodSegment, Persist, Progress, StepIds;
    var entered := Enter(live.run, live.pc.left);
    NotedGood(d, live, entered, BareEvent(ApprovalRequested).(call := Some(call), approval := approval), id, live.pc, request);
    NotedGood(d, live, entered, BareEvent(ApprovalDecided).(call := Some(call)), id, live.pc, request);
  }

  lemma WaitGood(d: Durable, live: Live, id: nat, call: ToolCall, requested: string, request: Request)
    requires DurableOk(d, request) && LiveOk(d, live, request) && IdsBelow(d.journal, id)
    requires d.snap.status != Canceled && CanCall(live.pc, call)
    ensures GoodSegment(d, request, id + 2, CallSegment(d, live, id, PauseForApproval(call, requested)))
  {
    hide DurableOk, Faithful, JumpOk, IdsBelow, GoodSegment, Persist, Progress, StepIds;
    var waiting := live.run.(status := Paused, stop := None, remaining := live.pc.left,
                             pendingCalls := [call] + live.pc.calls[1..], pendingApprovals := [requested]);
    NotedGood(d, live, waiting, BareEvent(RunPaused).(call := Some(call), approval := Some(requested)), id, Ended, request);
  }

  lemma CallGood(d: Durable, live: Live, id: nat, action: Action, request: Request)
    requires DurableOk(d, request) && LiveOk(d, live, request) && IdsBelow(d.journal, id)
    requires d.snap.status != Canceled
    ensures GoodSegment(d, request, id + 2, CallSegment(d, live, id, action))
  {
    hide DurableOk, LiveOk, IdsBelow, GoodSegment, Persist, RecordTool, Enter, Touch, CanCall;
    IdleGood(d, live, request, id + 2);
    match action
    case AskApproval(call, approval) => if CanCall(live.pc, call) { AskGood(d, live, id, call, approval, request); }
    case DecideApproval(call) => if CanCall(live.pc, call) { AskGood(d, live, id, call, None, request); }
    case PauseForApproval(call, requested) => if CanCall(live.pc, call) { WaitGood(d, live, id, call, requested, request); }
    case StartTool(call) => if CanCall(live.pc, call) { BeginCallGood(d, live, id, call, request); }
    case SkipStart(call) => if CanCall(live.pc, call) { BeginCallGood(d, live, id, call, request); }
    case RejectTool(call, error) => if CanCall(live.pc, call) { RejectGood(d, live, id, call, error, request); }
    case _ =>
  }

  lemma LedgerWriteGood(d: Durable, request: Request, bound: nat, w: Write, seg: Segment)
    requires TouchesLedgerOnly(w) && GoodSegment(Apply(d, w), request, bound, seg)
    ensures GoodSegment(d, request, bound, Segment([w] + seg.writes, seg.next))
  {
    GoodCons(d, request, bound, w, seg.writes);
  }

  lemma LedgerWriteKeeps(d: Durable, live: Live, w: Write, request: Request)
    requires DurableOk(d, request) && LiveOk(d, live, request) && TouchesLedgerOnly(w)
    ensures DurableOk(Apply(d, w), request) && LiveOk(Apply(d, w), live, request)
  {
    assert forall s :: Saved(Apply(d, w), s) ==> Saved(d, s);
  }

  lemma {:induction false} LedgerOnlyGood(d: Durable, live: Live, request: Request, bound: nat, ws: seq<Write>)
    requires DurableOk(d, request) && LiveOk(d, live, request)
    requires forall w :: w in ws ==> TouchesLedgerOnly(w)
    ensures GoodSegment(d, request, bound, Segment(ws, Some(live)))
    decreases |ws|
  {
    if ws != [] {
      LedgerWriteKeeps(d, live, ws[0], request);
      LedgerOnlyGood(Apply(d, ws[0]), live, request, bound, ws[1..]);
      LedgerWriteGood(d, request, bound, ws[0], Segment(ws[1..], Some(live)));
      assert [ws[0]] + ws[1..] == ws;
    }
  }

  lemma ExecuteGood(d: Durable, live: Live, id: nat, runId: string, tool: Option<ReplayPolicy>, request: Request)
    requires DurableOk(d, request) && LiveOk(d, live, request) && IdsBelow(d.journal, id)
    requires d.snap.status != Canceled && live.pc.Executing?
    ensures GoodSegment(d, request, id + 2, ExecuteSegment(d, live, id, runId, tool))
  {
    hide DurableOk, Faithful, JumpOk, IdsBelow, RecordTool, PlanCall, FailWrites, GoodWrites;
    var Executing(call, rest, left) := live.pc;
    var run := live.run;
    if call.name == None {
      SilentGood(d, live, Live(run, InTool(call, rest, left, None), false, live.jumped), request, id + 2);
    } else {
      match PlanCall(d.ledger, runId, Round(run.steps), call.id, tool)
      case Serve(result) => RecordGood(d, live, ResultEvent(call, result), id, rest, left, request);
      case ServeError(error) => RecordGood(d, live, ErrorEvent(call, error), id, rest, left, request);
      case ToolMissing => RecordGood(d, live, ErrorEvent(call, "tool not found"), id, rest, left, request);
      case Refuse(_) => FailGood(d, live, id, request);
      case DispatchNew(a) =>
        LedgerOnlyGood(d, Live(run, InTool(call, rest, left, Some(a.(status := Started))), false, live.jumped), request, id + 2,
                       [Create(a), Put(a.(status := Started)), Send(SentOf(a))]);
      case DispatchScheduled(a) =>
        LedgerOnlyGood(d, Live(run, InTool(call, rest, left, Some(a.(status := Started))), false, live.jumped), request, id + 2,
                       [Put(a.(status := Started)), Send(SentOf(a))]);
    }
  }

  lemma CloseGood(d: Durable, live: Live, id: nat, outcome: Outcome, e: Event, request: Request)
    requires DurableOk(d, request) && LiveOk(d, live, request) && IdsBelow(d.journal, id)
    requires d.snap.status != Canceled && live.pc.InTool? && e.kind in {ToolCompleted, ToolFailed} && e.call.Some?
    ensures GoodSegment(d, request, id + 2,
                        Close(live.pc.attempt, outcome, RecordTool(d, live, e, id, live.pc.rest, live.pc.left)))
  {
    hide DurableOk, Faithful, JumpOk, IdsBelow, RecordTool, GoodSegment;
    if live.pc.attempt.Some? {
      var w := Put(Concluded(live.pc.attempt.value, outcome));
      LedgerWriteKeeps(d, live, w, request);
      RecordGood(Apply(d, w), live, e, id, live.pc.rest, live.pc.left, request);
      RecordIgnoresLedger(d, w, live, e, id, live.pc.rest, live.pc.left);
      LedgerWriteGood(d, request, id + 2, w, RecordTool(d, live, e, id, live.pc.rest, live.pc.left));
    } else {
      RecordGood(d, live, e, id, live.pc.rest, live.pc.left, request);
    }
  }

  lemma RecordIgnoresLedger(d: Durable, w: Write, live: Live, e: Event, id: nat, rest: seq<ToolCall>, left: int)
    requires TouchesLedgerOnly(w) && ProgressOf(e).Some?
    ensures RecordTool(Apply(d, w), live, e, id, rest, left) == RecordTool(d, live, e, id, rest, left)
  {
  }

  lemma ToolGood(d: Durable, live: Live, id: nat, runId: string, action: Action, request: Request)
    requires DurableOk(d, request) && LiveOk(d, live, request) && IdsBelow(d.journal, id)
    requires d.snap.status != Canceled
    ensures GoodSegment(d, request, id + 2, ToolSegment(d, live, id, runId, action))
  {
    hide DurableOk, Faithful, JumpOk, IdsBelow, GoodWrites, RecordTool, ExecuteSegment, Close;
    IdleGood(d, live, request, id + 2);
    match action
    case Execute(tool) =>
      if live.pc.Executing? { ExecuteGood(d, live, id, runId, tool, request); }
    case ToolReturns(result) =>
      if live.pc.InTool? { CloseGood(d, live, id, Returned(result), ResultEvent(live.pc.call, result), request); }
    case ToolRaises(error) =>
      if live.pc.InTool? { CloseGood(d, live, id, Raised(error), ErrorEvent(live.pc.call, error), request); }
    case EndRound =>
      if live.pc.RoundDone? {
        var left := live.pc.left - 1;
        SilentGood(d, live, Live(live.run.(remaining := left), Chatting(left), false, live.jumped), request, id + 2);
      }
    case _ =>
  }

  lemma FinishGood(d: Durable, live: Live, request: Request, bound: nat)
    requires LiveOk(d, live, request) && d.snap.status != Canceled && (live.pc.Broken? || live.pc.Calling?)
    ensures GoodSegment(d, request, bound, Segment([], Some(Live(FinishRun(live.run, live.pc), Stopping, false, live.jumped))))
  {
    ProgressPush(live.run.steps, BareStep(StopStep));
    SilentGood(d, live, Live(FinishRun(live.run, live.pc), Stopping, false, live.jumped), request, bound);
  }

  lemma LatePauseGood(d: Durable, live: Live, id: nat, request: Request)
    requires DurableOk(d, request) && LiveOk(d, live, request) && IdsBelow(d.journal, id)
    requires d.snap.status != Canceled && live.run.trace != []
    ensures var p := Stamp(BareEvent(RunPaused), id, |d.journal| + 1);
            var paused := PausedAt(live.run, live.run.trace[|live.run.trace| - 1].kind, p);
            GoodSegment(d, request, id + 2,
                        Segment([Append(p), Save(paused, Jumped(d, live))], Some(Live(paused, Ended, false, Jumped(d, live)))))
  {
    hide DurableOk, Faithful, JumpOk, Kept;
    var p := Stamp(BareEvent(RunPaused), id, |d.journal| + 1);
    var paused := PausedAt(live.run, live.run.trace[|live.run.trace| - 1].kind, p);
    NoteAndSaveGood(d, live, p, paused, request, id + 2);
  }

  lemma StoppedGood(d: Durable, live: Live, id: nat, request: Request)
    requires DurableOk(d, request) && LiveOk(d, live, request) && IdsBelow(d.journal, id)
    requires d.snap.status != Canceled && live.run.stop.Some?
    ensures GoodSegment(d, request, id + 2,
                        Persist(d, live, Stopped(live.run, id), StopEvent(StopBy(live.run.stop.value)), id, Ended))
  {
    TouchKeeps(live.run.steps, StopStep, id);
    NotedGood(d, live, Stopped(live.run, id), StopEvent(StopBy(live.run.stop.value)), id, Ended, request);
  }

  lemma StopGood(d: Durable, live: Live, id: nat, request: Request)
    requires DurableOk(d, request) && LiveOk(d, live, request) && IdsBelow(d.journal, id)
    requires d.snap.status != Canceled && live.pc == Stopping
    ensures GoodSegment(d, request, id + 2, ClosingSegment(d, live, id, StopRun))
  {
    hide DurableOk, LiveOk, IdsBelow, Persist, GoodSegment, Stopped;
    IdleGood(d, live, request, id + 2);
    if live.run.stop.Some? {
      StoppedGood(d, live, id, request);
      assert ClosingSegment(d, live, id, StopRun)
             == Persist(d, live, Stopped(live.run, id), StopEvent(StopBy(live.run.stop.value)), id, Ended);
    }
  }

  lemma MemoryGood(d: Durable, live: Live, id: nat, request: Request)
    requires DurableOk(d, request) && LiveOk(d, live, request) && IdsBelow(d.journal, id)
    requires d.snap.status != Canceled && live.pc == Stopping
    ensures GoodSegment(d, request, id + 2, ClosingSegment(d, live, id, WriteMemory))
  {
    hide DurableOk, LiveOk, IdsBelow, Persist, GoodSegment, Progress, StepIds;
    var run := live.run;
    var s := BareStep(MemoryStep).(eventId := Some(id));
    ProgressPush(run.steps, s);
    NotedGood(d, live, run.(steps := run.steps + [s]), BareEvent(MemoryWritten), id, Stopping, request);
  }

  lemma ClosingGood(d: Durable, live: Live, id: nat, action: Action, request: Request)
    requires DurableOk(d, request) && LiveOk(d, live, request) && IdsBelow(d.journal, id)
    requires d.snap.status != Canceled
    ensures GoodSegment(d, request, id + 2, ClosingSegment(d, live, id, action))
  {
    hide DurableOk, LiveOk, IdsBelow, Persist, FailWrites, FinallyWrites, GoodWrites, PausedAt, FinishRun;
    IdleGood(d, live, request, id + 2);
    match action
    case Finish =>
      if live.pc.Broken? || live.pc.Calling? { FinishGood(d, live, request, id + 2); }
    case WriteMemory =>
      if live.pc == Stopping { MemoryGood(d, live, id, request); }
    case StopRun =>
      if live.pc == Stopping { StopGood(d, live, id, request); }
    case LatePause =>
      if live.run.trace != [] { LatePauseGood(d, live, id, request); }
    case Raise => FailGood(d, live, id, request);
    case Interrupt => FinallyGood(d, live, request, id + 2);
    case Return => FinallyGood(d, live, request, id + 2);
    case _ =>
  }

  lemma ActGood(d: Durable, live: Live, id: nat, runId: string, action: Action, request: Request)
    requires DurableOk(d, request) && LiveOk(d, live, request) && IdsBelow(d.journal, id)
    requires d.snap.status != Canceled
    ensures GoodSegment(d, request, id + 2, ActSegment(d, live, id, runId, action))
  {
    OpeningGood(d, live, id, action, request);
    CallGood(d, live, id, action, request);
    ToolGood(d, live, id, runId, action, request);
    ClosingGood(d, live, id, action, request);
  }

  // ----------------------------------------------------------- control and recovery

  /** The stored snapshot, taken as a copy that control calls work on. */
  function Stored(d: Durable): Live {
    Live(d.snap, Loaded, false, {})
  }

  lemma StoredInStep(d: Durable, request: Request)
    requires DurableOk(d, request)
    ensures InStep(d, Stored(d), request) && Jumped(d, Stored(d)) == Passed(d)
  {
    assert Saved(d, d.snap);
    assert d.skipped + {} == d.skipped;
  }

  /** A control call notes its event on the stored snapshot and saves it. */
  lemma ControlGood(d: Durable, e: Event, run: Run, id: nat, request: Request)
    requires DurableOk(d, request) && IdsBelow(d.journal, id)
    requires e.id == Some(id) && e.sequence == Some(|d.journal| + 1) && e.kind in {RunStopped, ExecutionResolved}
    requires e.kind == RunStopped ==> e.stop != OtherText
    requires SameCore(run, Noted(d.snap, e))
    ensures GoodWrites(d, request, id + 2, [Append(e), Save(run, Passed(d))])
  {
    StoredInStep(d, request);
    NoteAndSaveGood(d, Stored(d), e, run, request, id + 2);
  }

  lemma {:induction false} LedgerFirstGood(d: Durable, first: seq<Write>, rest: seq<Write>, request: Request, bound: nat)
    requires DurableOk(d, request) && forall w :: w in first ==> TouchesLedgerOnly(w)
    requires DurableOk(ApplyAll(d, first), request) ==> GoodWrites(ApplyAll(d, first), request, bound, rest)
    ensures DurableOk(ApplyAll(d, first), request)
    ensures GoodWrites(d, request, bound, first + rest)
    decreases |first|
  {
    hide Faithful, JournalOk, GoodWrite;
    if first == [] {
      assert first + rest == rest;
    } else {
      var d1 := Apply(d, first[0]);
      assert first[0] in first;
      assert forall s :: Saved(d1, s) ==> Saved(d, s);
      LedgerFirstGood(d1, first[1..], rest, request, bound);
      GoodCons(d, request, bound, first[0], first[1..] + rest);
      assert [first[0]] + (first[1..] + rest) == first + rest;
    }
  }

  lemma ResolveGood(d: Durable, id: nat, call: string, number: nat, confirmed: Option<string>, request: Request)
    requires DurableOk(d, request) && IdsBelow(d.journal, id)
    ensures GoodWrites(d, request, id + 2, ResolveWrites(d, id, call, number, confirmed))
  {
    var ws := ResolveWrites(d, id, call, number, confirmed);
    if ws != [] {
      ResolveSplit(d, id, call, number, confirmed);
      ResolveRestGood(d, ws[0], id, ws[2].run.pause, request);
    }
  }

  lemma ResolveSplit(d: Durable, id: nat, call: string, number: nat, confirmed: Option<string>)
    requires ResolveWrites(d, id, call, number, confirmed) != []
    ensures var ws := ResolveWrites(d, id, call, number, confirmed);
            && |ws| == 3 && ws[0].Resolve? && ws[2].Save?
            && ws == [ws[0]] + ResolvedWrites(Apply(d, ws[0]), id, ws[2].run.pause)
  {
  }

  lemma ResolveRestGood(d: Durable, w: Write, id: nat, pause: Option<Pause>, request: Request)
    requires DurableOk(d, request) && IdsBelow(d.journal, id) && w.Resolve?
    ensures GoodWrites(d, request, id + 2, [w] + ResolvedWrites(Apply(d, w), id, pause))
  {
    ApplyOne(d, w);
    if DurableOk(Apply(d, w), request) { ResolvedGood(Apply(d, w), id, pause, request); }
    LedgerFirstGood(d, [w], ResolvedWrites(Apply(d, w), id, pause), request, id + 2);
  }

  function ResolvedWrites(d: Durable, id: nat, pause: Option<Pause>): seq<Write> {
    var e := Stamp(BareEvent(ExecutionResolved), id, |d.journal| + 1);
    [Append(e), Save(Noted(d.snap, e).(pause := pause), Passed(d))]
  }

  lemma ResolvedGood(d: Durable, id: nat, pause: Option<Pause>, request: Request)
    requires DurableOk(d, request) && IdsBelow(d.journal, id)
    ensures GoodWrites(d, request, id + 2, ResolvedWrites(d, id, pause))
  {
    var e := Stamp(BareEvent(ExecutionResolved), id, |d.journal| + 1);
    ControlGood(d, e, Noted(d.snap, e).(pause := pause), id, request);
  }

  lemma {:induction false} AbandonPutsTouch(ledger: seq<Attempt>, rows: seq<Attempt>)
    ensures forall w :: w in AbandonPuts(ledger, rows) ==> TouchesLedgerOnly(w)
    decreases |rows|
  {
    if rows != [] { AbandonPutsTouch(ledger, rows[1..]); }
  }

  lemma AbandonGood(d: Durable, id: nat, request: Request)
    requires DurableOk(d, request) && IdsBelow(d.journal, id)
    ensures GoodWrites(d, request, id + 2, AbandonWrites(d, id))
  {
    var ws := AbandonWrites(d, id);
    if ws != [] {
      var first := AbandonPuts(d.ledger, d.ledger);
      AbandonPutsTouch(d.ledger, d.ledger);
      LedgerWritesKeepRun(d, first);
      var e := Stamp(BareEvent(ExecutionResolved), id, |d.journal| + 1);
      var d1 := ApplyAll(d, first);
      if DurableOk(d1, request) { ControlGood(d1, e, Noted(d.snap, e), id, request); }
      LedgerFirstGood(d, first, [Append(e), Save(Noted(d.snap, e), Passed(d))], request, id + 2);
    }
  }

  lemma {:induction false} UnknownPutsTouch(rows: seq<Attempt>)
    ensures forall w :: w in UnknownPuts(rows) ==> TouchesLedgerOnly(w)
    decreases |rows|
  {
    if rows != [] { UnknownPutsTouch(rows[1..]); }
  }

  /** The two ways recovery ends: the journal already stopped the run, or it is paused. */
  lemma SuspendGood(d: Durable, id: nat, cause: PauseCause, request: Request)
    requires DurableOk(d, request) && IdsBelow(d.journal, id)
    ensures GoodWrites(d, request, id + 2, SuspendWrites(d, id, cause))
  {
    if d.snap.status == Running {
      var first := UnknownPuts(d.ledger);
      UnknownPutsTouch(d.ledger);
      LedgerWritesKeepRun(d, first);
      var d1 := ApplyAll(d, first);
      var ws := SuspendWrites(d, id, cause);
      assert ws == first + ws[|first|..];
      if DurableOk(d1, request) { SuspendTailGood(d1, id, cause, request); }
      SuspendSplit(d, id, cause);
      LedgerFirstGood(d, first, SuspendTail(d1, id, cause), request, id + 2);
    }
  }

  /** What recovery writes once it has marked the started attempts. */
  function SuspendTail(d: Durable, id: nat, cause: PauseCause): seq<Write> {
    var (run, eligible, checkpoint) := Inspect(d.snap, d.journal, Some(d.ledger));
    if run.status != Running then [Save(run, {})]
    else
      var e := Stamp(BareEvent(RunPaused), id, |d.journal| + 1);
      var paused := Noted(run, e).(status := Paused, stop := None, pause := Some(Pause(cause, checkpoint, eligible)));
      [Append(e), Save(paused, Range(run.applied, |d.journal|))]
  }

  lemma SuspendSplit(d: Durable, id: nat, cause: PauseCause)
    requires d.snap.status == Running
    ensures SuspendWrites(d, id, cause) == UnknownPuts(d.ledger) + SuspendTail(ApplyAll(d, UnknownPuts(d.ledger)), id, cause)
  {
    UnknownPutsTouch(d.ledger);
    LedgerWritesKeepRun(d, UnknownPuts(d.ledger));
  }

  lemma RestoredInStep(d: Durable, request: Request)
    requires DurableOk(d, request)
    ensures var (run, error) := Restore(d.snap, d.journal);
            error == None && run.applied == |d.journal| && InStep(d, Live(run, Loaded, false, {}), request)
  {
    hide Faithful, BuiltTrace, Replayable, Restore, Kept, Progress, ResponseFrom, LeftFrom, RemainingFrom;
    assert Saved(d, d.snap);
    ChatsAreProgress(d.journal, request.maxToolRounds);
    RestoreFaithful(d.snap, d.journal, d.skipped, request);
    SavedReplays(d, d.snap, request);
    RestoreBuilds(d.snap, d.journal, request.maxToolRounds);
    LeftIsRemaining(d.journal, d.snap.applied, |d.journal|, d.snap.remaining, d.skipped);
    assert d.skipped + {} == d.skipped;
  }

  lemma SavedReplays(d: Durable, s: Run, request: Request)
    requires DurableOk(d, request) && Saved(d, s)
    ensures Faithful(s, d.journal, d.skipped, request) && Replayable(s, d.journal) && s.request == request
  {
  }

  /** What is not skipped counts for replay. */
  lemma {:induction false} LeftIsRemaining(journal: seq<Event>, from: nat, end: nat, before: int, skipped: set<nat>)
    requires from <= end <= |journal|
    requires forall i :: from <= i < end && IsProgressEvent(journal[i]) ==> i !in skipped
    requires forall i :: from <= i < end && journal[i].kind == ChatCompleted ==> IsProgressEvent(journal[i])
    ensures LeftFrom(journal, from, end, before, skipped) == RemainingFrom(journal, from, end, before)
    decreases end
  {
    if end > from { LeftIsRemaining(journal, from, end - 1, before, skipped); }
  }

  lemma PausedRecoveryGood(d: Durable, run: Run, id: nat, pause: Pause, request: Request)
    requires DurableOk(d, request) && IdsBelow(d.journal, id) && InStep(d, Live(run, Loaded, false, {}), request)
    ensures var e := Stamp(BareEvent(RunPaused), id, |d.journal| + 1);
            var paused := Noted(run, e).(status := Paused, stop := None, pause := Some(pause));
            GoodWrites(d, request, id + 2, [Append(e), Save(paused, Range(run.applied, |d.journal|))])
  {
    var e := Stamp(BareEvent(RunPaused), id, |d.journal| + 1);
    var live := Live(run, Loaded, false, {});
    assert Jumped(d, live) == Range(run.applied, |d.journal|);
    NoteAndSaveGood(d, live, e, Noted(run, e).(status := Paused, stop := None, pause := Some(pause)), request, id + 2);
  }

  lemma InspectRestores(run: Run, events: seq<Event>, ledger: Option<seq<Attempt>>)
    ensures Inspect(run, events, ledger).0 == Restore(run, events).0
  {
  }

  lemma SuspendTailGood(d: Durable, id: nat, cause: PauseCause, request: Request)
    requires DurableOk(d, request) && IdsBelow(d.journal, id)
    ensures GoodWrites(d, request, id + 2, SuspendTail(d, id, cause))
  {
    hide DurableOk, InStep, GoodWrites, Restore, IdsBelow, Noted, Range, Inspect;
    RestoredInStep(d, request);
    InspectRestores(d.snap, d.journal, Some(d.ledger));
    var (run, eligible, checkpoint) := Inspect(d.snap, d.journal, Some(d.ledger));
    SavedGood(d, Live(run, Loaded, false, {}), request, id + 2);
    PausedRecoveryGood(d, run, id, Pause(cause, checkpoint, eligible), request);
  }

  // --------------------------------------------------------------------- runs

  ghost predicate WorldInStep(w: World, request: Request) {
    && DurableOk(w.d, request) && IdsBelow(w.d.journal, w.nextId)
    && |w.copies| <= 1 && (forall c :: c in w.copies ==> LiveOk(w.d, c, request))
  }

  lemma {:induction false} LedgerOnlyWritesGood(d: Durable, request: Request, bound: nat, ws: seq<Write>)
    requires forall w :: w in ws ==> TouchesLedgerOnly(w)
    ensures GoodWrites(d, request, bound, ws)
    decreases |ws|
  {
    if ws != [] {
      assert ws[0] in ws;
      LedgerOnlyWritesGood(Apply(d, ws[0]), request, bound, ws[1..]);
    }
  }

  lemma CancelGood(d: Durable, id: nat, request: Request)
    requires DurableOk(d, request) && IdsBelow(d.journal, id)
    ensures GoodWrites(d, request, id + 2, CancelWrites(d, id))
  {
    var e := Stamp(StopEvent(CanceledText), id, |d.journal| + 1);
    ControlGood(d, e, CanceledBy(d.snap, e), id, request);
  }

  lemma MarkFailedGood(d: Durable, id: nat, request: Request)
    requires DurableOk(d, request) && IdsBelow(d.journal, id)
    ensures GoodWrites(d, request, id + 2, MarkFailedWrites(d, id))
  {
    var e := Stamp(StopEvent(FailedText), id, |d.journal| + 1);
    ControlGood(d, e, FailedBy(d.snap, e), id, request);
  }

  lemma ActOpGood(w: World, runId: string, i: nat, action: Action, request: Request)
    requires WorldInStep(w, request) && w.d.snap.status != Canceled && i < |w.copies|
    ensures GoodSegment(w.d, request, w.nextId + 2, ActSegment(w.d, w.copies[i], w.nextId, runId, action))
  {
    hide DurableOk, LiveOk, GoodSegment, ActSegment, IdsBelow;
    ActGood(w.d, w.copies[i], w.nextId, runId, action, request);
  }

  lemma ControlOpGood(w: World, runId: string, op: Op, request: Request)
    requires WorldInStep(w, request) && (op.Load? || op.RequestPause? || op.Cancel? || op.MarkFailed?)
    ensures GoodWrites(w.d, request, w.nextId + 2, OpWrites(w, runId, op))
  {
    hide DurableOk, CancelWrites, MarkFailedWrites;
    if op.RequestPause? {
      PauseRequestGood(w.d, request, w.nextId + 2);
    } else if op.Cancel? {
      CancelGood(w.d, w.nextId, request);
    } else if op.MarkFailed? {
      MarkFailedGood(w.d, w.nextId, request);
    }
  }

  lemma RecoveryOpGood(w: World, runId: string, op: Op, request: Request)
    requires WorldInStep(w, request) && (op.ResolveExecution? || op.Abandon? || op.Suspend?)
    ensures GoodWrites(w.d, request, w.nextId + 2, OpWrites(w, runId, op))
  {
    hide ResolveWrites, AbandonWrites, SuspendWrites, GoodWrites;
    match op
    case ResolveExecution(call, number, confirmed) => ResolveGood(w.d, w.nextId, call, number, confirmed, request);
    case Abandon => AbandonGood(w.d, w.nextId, request);
    case Suspend(cause, _) => SuspendGood(w.d, w.nextId, cause, request);
  }

  lemma OpGood(w: World, runId: string, op: Op, request: Request)
    requires WorldInStep(w, request) && w.d.snap.status != Canceled
    ensures GoodWrites(w.d, request, w.nextId + 2, OpWrites(w, runId, op))
  {
    if op.Act? {
      if op.copy < |w.copies| { ActOpGood(w, runId, op.copy, op.action, request); }
    } else if op.ResolveExecution? || op.Abandon? || op.Suspend? {
      RecoveryOpGood(w, runId, op, request);
    } else {
      ControlOpGood(w, runId, op, request);
    }
  }

  lemma PauseRequestGood(d: Durable, request: Request, bound: nat)
    requires DurableOk(d, request)
    ensures GoodWrites(d, request, bound, [Save(d.snap.(pauseRequest := true), {})])
  {
    StoredInStep(d, request);
    var live := Live(d.snap.(pauseRequest := true), Loaded, false, {});
    CoreInStep(d, Stored(d), live, request);
    SavedGood(d, live, request, bound);
  }

  lemma WritesGood(w: World, runId: string, op: Op, request: Request)
    requires WorldInStep(w, request)
    ensures GoodWrites(w.d, request, w.nextId + 2, OpWrites(w, runId, op))
  {
    if w.d.snap.status == Canceled {
      CanceledOpWrites(w, runId, op);
      LedgerOnlyWritesGood(w.d, request, w.nextId + 2, OpWrites(w, runId, op));
    } else {
      OpGood(w, runId, op, request);
    }
  }

  lemma CopiesInStep(w: World, runId: string, op: Op, request: Request)
    requires WorldInStep(w, request) && Alone(w, op) && w.d.snap.status != Canceled
    requires DurableOk(ApplyAll(w.d, OpWrites(w, runId, op)), request)
    ensures var d := ApplyAll(w.d, OpWrites(w, runId, op));
            |OpCopies(w, runId, op)| <= 1 && forall c :: c in OpCopies(w, runId, op) ==> LiveOk(d, c, request)
  {
    hide DurableOk, ActSegment;
    match op
    case Load => StoredInStep(w.d, request);
    case RequestPause =>
      if w.d.snap.status == Running {
        var save := Save(w.d.snap.(pauseRequest := true), {});
        ApplyOne(w.d, save);
        assert Apply(w.d, save).skipped == w.d.skipped;
      }
    case Cancel =>
      var ws := CancelWrites(w.d, w.nextId);
      if ws != [] {
        assert ws == [ws[0], ws[1]];
        ApplyTwo(w.d, ws[0], ws[1]);
      }
    case Act(i, action) =>
      if i < |w.copies| { ActGood(w.d, w.copies[i], w.nextId, runId, action, request); }
    case _ =>
  }

  lemma DurableStep(w: World, runId: string, step: Label, request: Request)
    requires WorldInStep(w, request)
    ensures var after := Next(w, runId, step);
            DurableOk(after.d, request) && IdsBelow(after.d.journal, after.nextId)
  {
    var ws := OpWrites(w, runId, step.op);
    WritesGood(w, runId, step.op, request);
    SurvivingIsPrefix(ws, step);
    var k :| 0 <= k <= |ws| && Surviving(ws, step) == ws[..k];
    GoodWritesKeep(w.d, request, w.nextId + 2, ws, k);
  }

  lemma StepInStep(w: World, runId: string, step: Label, request: Request)
    requires WorldInStep(w, request) && Alone(w, step.op)
    ensures WorldInStep(Next(w, runId, step), request)
  {
    DurableStep(w, runId, step, request);
    if step.cut == None {
      if w.d.snap.status == Canceled {
        CanceledStep(w, runId, step);
        CopiesStayFew(w, runId, step.op);
      } else {
        CopiesInStep(w, runId, step.op, request);
      }
    }
  }

  lemma CopiesStayFew(w: World, runId: string, op: Op)
    requires |w.copies| <= 1 && Alone(w, op)
    ensures |OpCopies(w, runId, op)| <= 1
  {
  }

  lemma {:induction false} RunsInStep(ws: seq<World>, request: Request, runId: string, steps: seq<Label>, k: nat)
    requires ExclusiveRun(ws, request, runId, steps) && k < |ws|
    ensures WorldInStep(ws[k], request)
    decreases k
  {
    hide WorldInStep, Next, Alone;
    if k > 0 {
      RunsInStep(ws, request, runId, steps, k - 1);
      StepInStep(ws[k - 1], runId, steps[k - 1], request);
    } else {
      StartInStep(request);
    }
  }

  lemma StartInStep(request: Request)
    ensures WorldInStep(StartWorld(request), request)
  {
  }

  // ------------------------------------------------------------------ main result

  lemma {:induction false} SkipsShorten(journal: seq<Event>, from: nat, end: nat, skipped: set<nat>)
    requires from <= end <= |journal|
    ensures |Kept(journal, from, end, skipped)| <= |Kept(journal, from, end, {})|
    ensures |Kept(journal, from, end, skipped)| == |Kept(journal, from, end, {})|
            <==> forall i :: from <= i < end && IsProgressEvent(journal[i]) ==> i !in skipped
    decreases end
  {
    if end > from { SkipsShorten(journal, from, end - 1, skipped); }
  }

  /** The current round has calls and every one of them has its result. */
  predicate RoundComplete(run: Run) {
    CallsOf(run.response) != [] && IncompleteCalls(CallsOf(run.response), CompletedIds(run.steps)) == []
  }

  /** A view of the run that has seen the whole journal: the stored snapshot or the live copy. */
  ghost predicate Current(w: World, live: Live) {
    (live == Stored(w.d) || (live in w.copies && w.d.snap.status != Canceled)) && live.run.applied == |w.d.journal|
  }

  /** No progress event from `from` on was passed over by the run or by a stored snapshot. */
  ghost predicate NoOrphan(d: Durable, live: Live, from: nat) {
    NoneSkipped(d.journal, d.skipped + live.jumped, from)
  }

  /** Crash-replay agreement. Whatever crashes, pauses and resumes came before, restoring any
      snapshot ever saved from the whole journal succeeds, and it gives the progress of the run
      that stands at the end of the journal exactly when no progress event since that snapshot
      was orphaned, that is, when the run's own trace holds each of them; then the current
      response is the same too, and the rounds left are at least those of the run. */
  lemma CrashReplayAgreement(ws: seq<World>, request: Request, runId: string, steps: seq<Label>, k: nat, live: Live, s: Run)
    requires ExclusiveRun(ws, request, runId, steps) && k < |ws|
    requires Current(ws[k], live) && Saved(ws[k].d, s)
    ensures var d := ws[k].d;
            var (restored, error) := Restore(s, d.journal);
            && error == None && restored.applied == live.run.applied
            && (Progress(restored.steps) == Progress(live.run.steps) <==> NoOrphan(d, live, s.applied))
            && (NoOrphan(d, live, s.applied) <==> Remembered(d.journal, s.applied, live.run.trace))
            && (NoOrphan(d, live, s.applied) ==>
                  restored.response == live.run.response && live.run.remaining <= restored.remaining)
  {
    RunsInStep(ws, request, runId, steps, k);
    StoredInStep(ws[k].d, request);
    RestoredAgrees(ws[k].d, live, s, request);
    RestoredKeepsRounds(ws[k].d, live, s, request);
    OrphansAreUntraced(ws[k].d, live, s.applied, request);
  }

  /** Every response, result and error of the journal from `from` on is in the trace. */
  ghost predicate Remembered(journal: seq<Event>, from: nat, trace: seq<Event>) {
    forall i :: from <= i < |journal| && IsProgressEvent(journal[i]) ==> journal[i] in trace
  }

  lemma OrphansAreUntraced(d: Durable, live: Live, from: nat, request: Request)
    requires InStep(d, live, request) && live.run.applied == |d.journal|
    ensures NoOrphan(d, live, from) <==> Remembered(d.journal, from, live.run.trace)
  {
    assert Traced(live.run, d.journal, d.skipped + live.jumped);
  }

  lemma RestoredKeepsRounds(d: Durable, live: Live, s: Run, request: Request)
    requires DurableOk(d, request) && InStep(d, live, request) && live.run.applied == |d.journal| && Saved(d, s)
    ensures NoOrphan(d, live, s.applied) ==> live.run.remaining <= Restore(s, d.journal).0.remaining
  {
    hide Traced, Noticed, LastRemaining, LastResponse, JournalOk, Kept;
    var all := d.skipped + live.jumped;
    assert s.applied <= d.snap.applied;
    SpentFrame(d.journal, d.journal, s, d.snap, d.skipped, all);
    SpentCompose(d.journal, s, d.snap, live.run, all);
    if NoOrphan(d, live, s.applied) {
      SavedReplays(d, s, request);
      RestoreBuilds(s, d.journal, request.maxToolRounds);
      ChatsAreProgress(d.journal, request.maxToolRounds);
      LeftIsRemaining(d.journal, s.applied, |d.journal|, s.remaining, all);
    }
  }

  lemma ChatsAreProgress(journal: seq<Event>, max: nat)
    requires JournalOk(journal, max)
    ensures forall i :: 0 <= i < |journal| && journal[i].kind == ChatCompleted ==> IsProgressEvent(journal[i])
  {
  }

  lemma RestoredAgrees(d: Durable, live: Live, s: Run, request: Request)
    requires DurableOk(d, request) && InStep(d, live, request) && live.run.applied == |d.journal| && Saved(d, s)
    ensures var (restored, error) := Restore(s, d.journal);
            && error == None && restored.applied == |d.journal|
            && (Progress(restored.steps) == Progress(live.run.steps) <==> NoOrphan(d, live, s.applied))
            && (NoOrphan(d, live, s.applied) ==> restored.response == live.run.response)
  {
    var n, all := |d.journal|, d.skipped + live.jumped;
    var max := request.maxToolRounds;
    RestoreBuilds(s, d.journal, max);
    KeptSplit(d.journal, s.applied, n, all);
    KeptFrame(d.journal, d.journal, 0, s.applied, d.skipped, all);
    LastFrame(d.journal, d.journal, s.applied, d.skipped, all, max);
    SkipsShorten(d.journal, s.applied, n, all);
    if NoOrphan(d, live, s.applied) {
      KeptFrame(d.journal, d.journal, s.applied, n, all, {});
      LastFrom(d.journal, s.applied, n, all, max);
    }
  }
}
