/** The rounds left that recovery restores, compared with the live run's: exactly when they are
    equal, and a run in which a round is charged twice. */
module RoundsLeft {
  import opened Wrappers
  import opened Content
  import opened Runs
  import opened Recovery
  import opened Ledger
  import opened Machine
  import opened Agreement
  import opened Replaying
  import opened Exclusive
  import opened Protocol
  import opened Untorn
  import opened Budgets
  import opened RoundBudget

  /** The rounds left that the last response of the journal recorded. */
  function Recorded(journal: seq<Event>, max: nat): int {
    RemainingFrom(journal, 0, |journal|, max)
  }

  // -------------------------------------------------------------- the exact condition

  lemma {:induction false} ResponseDecides(journal: seq<Event>, from: nat, end: nat, a: int, b: int, max: nat)
    requires from <= end <= |journal| && JournalOk(journal, max)
    ensures (forall i :: from <= i < end ==> journal[i].kind != ChatCompleted) ==> RemainingFrom(journal, from, end, a) == a
    ensures (exists i :: from <= i < end && journal[i].kind == ChatCompleted) ==>
              RemainingFrom(journal, from, end, a) == RemainingFrom(journal, from, end, b)
    decreases end
  {
    if end > from {
      assert EventOk(journal[end - 1], max);
      ResponseDecides(journal, from, end - 1, a, b, max);
    }
  }

  /** A snapshot with results of its own round behind it is not charged yet. */
  lemma ResultsBehind(d: Durable, live: Live, s: Run, request: Request)
    requires Abreast(true, d, live, request) && live.run.applied == |d.journal| && Saved(d, s) && s.applied <= |d.journal|
    requires !TailClean(d.journal, s.applied)
    requires forall i :: s.applied <= i < |d.journal| ==> d.journal[i].kind != ChatCompleted
    ensures s.remaining == RemainingFrom(d.journal, 0, s.applied, request.maxToolRounds)
  {
    hide RunShape, Faithful, EchoOk, RestoredShape, JournalOk, JumpOk, Pending, LastChat, Progress, InProtocol, RemainingFrom;
    var n, max, p := |d.journal|, request.maxToolRounds, Progress(s.steps);
    assert Charged(true, d, s, max);
    SavedReplays(d, s, request);
    CleanView(s, d.journal, d.skipped, request);
    AbreastView(true, d, live, request);
    LiveProtocol(live.run, request);
    var kept := Kept(d.journal, s.applied, n, {});
    var i :| s.applied <= i < n && IsProgressEvent(d.journal[i]);
    OneKept(d.journal, s.applied, n, i);
    FirstKept(d.journal, s.applied, n);
    assert (p + kept)[..|p| + 1] == p + [kept[0]];
    ProtocolPrefix(p + kept, |p| + 1);
    PushTool(p, kept[0]);
  }

  lemma LiveProtocol(run: Run, request: Request)
    requires RunShape(true, run, request)
    ensures InProtocol(Progress(run.steps))
  {
  }

  lemma {:induction false} OneKept(journal: seq<Event>, from: nat, end: nat, i: nat)
    requires from <= i < end <= |journal| && IsProgressEvent(journal[i])
    ensures Kept(journal, from, end, {}) != []
    decreases end
  {
    if i < end - 1 { OneKept(journal, from, end - 1, i); }
  }

  lemma {:induction false} FirstKept(journal: seq<Event>, from: nat, end: nat)
    requires from <= end <= |journal| && Kept(journal, from, end, {}) != []
    requires forall i :: from <= i < end ==> journal[i].kind != ChatCompleted
    ensures IsToolStep(Kept(journal, from, end, {})[0])
    decreases end
  {
    if Kept(journal, from, end - 1, {}) != [] { FirstKept(journal, from, end - 1); }
  }

  /** No snapshot has more rounds left than its last response recorded. */
  lemma NeverAboveRecord(d: Durable, s: Run, request: Request)
    requires DurableOk(d, request) && Saved(d, s) && SkipClean(d.journal, d.skipped)
    ensures s.applied <= |d.journal| && s.remaining <= RemainingFrom(d.journal, 0, s.applied, request.maxToolRounds)
  {
    hide JournalOk, LastResponse, Kept;
    SavedReplays(d, s, request);
    LastFrom(d.journal, 0, s.applied, d.skipped, request.maxToolRounds);
  }

  lemma LeftMeans(d: Durable, live: Live, s: Run, request: Request)
    requires Abreast(true, d, live, request) && live.run.applied == |d.journal| && Saved(d, s)
    ensures Restore(s, d.journal).0.remaining == live.run.remaining
            <==> live.run.remaining == Recorded(d.journal, request.maxToolRounds)
                 || (TailClean(d.journal, s.applied) && s.remaining == live.run.remaining)
  {
    hide RunShape, Charge, Faithful, EchoOk, RestoredShape, JournalOk, Undiminished, JumpOk, Restore, Replayable, RemainingFrom, BuiltTrace;
    var n, max := |d.journal|, request.maxToolRounds;
    SavedReplays(d, s, request);
    RestoreBuilds(s, d.journal, max);
    RemainingAgrees(true, d, live, s, request);
    NeverAboveRecord(d, s, request);
    var before := RemainingFrom(d.journal, 0, s.applied, max);
    RemainingCompose(d.journal, 0, s.applied, n, max);
    ResponseDecides(d.journal, s.applied, n, s.remaining, before, max);
    ResponseDecides(d.journal, s.applied, n, before, s.remaining, max);
    if i :| s.applied <= i < n && d.journal[i].kind == ChatCompleted {
      ChatsAreProgress(d.journal, max);
      assert IsProgressEvent(d.journal[i]);
    } else if !TailClean(d.journal, s.applied) {
      ResultsBehind(d, live, s, request);
    }
  }

  // ------------------------------------------------------- where a round is charged

  /** A completed round not followed up yet is not charged; a follow-up under way is charged
      ahead of what is stored, unless nothing is left to charge. */
  ghost predicate ChargeShows(d: Durable, c: Live, max: nat) {
    Alive(d) ==>
      && (c.pc.Loaded? ==> c.run.(pauseRequest := d.snap.pauseRequest) == d.snap)
      && (c.pc.RoundDone? || c.pc.Chatting? ==> TailClean(d.journal, d.snap.applied))
      && (c.pc.RoundDone? ==> c.run.remaining == Recorded(d.journal, max) && c.run.remaining == d.snap.remaining)
      && (c.pc.Chatting? && Complete(Progress(c.run.steps)) ==>
            c.run.remaining < d.snap.remaining || d.snap.remaining == 0 == c.run.remaining)
  }

  ghost predicate SegmentShows(d: Durable, seg: Segment, max: nat) {
    seg.next.Some? ==> ChargeShows(ApplyAll(d, seg.writes), seg.next.value, max)
  }

  predicate Elsewhere(pc: Pc) {
    !pc.Loaded? && !pc.RoundDone? && !pc.Chatting?
  }

  lemma PersistNext(d: Durable, live: Live, run: Run, e: Event, id: nat, pc: Pc)
    ensures var next := Persist(d, live, run, e, id, pc).next;
            next.Some? ==> next.value.pc == pc || next.value.pc == Ended
  {
  }

  lemma PersistShows(d: Durable, live: Live, run: Run, e: Event, id: nat, pc: Pc, max: nat)
    requires Elsewhere(pc)
    ensures SegmentShows(d, Persist(d, live, run, e, id, pc), max)
  {
    hide Persist, ApplyAll;
    PersistNext(d, live, run, e, id, pc);
  }

  /** The last result of a round: nothing is charged, and what is stored says the same. */
  lemma RecordShows(d: Durable, live: Live, call: ToolCall, e: Event, id: nat, rest: seq<ToolCall>, left: int, request: Request)
    requires e.kind in {ToolCompleted, ToolFailed} && ProgressOf(e).Some?
    requires Ready(true, d, live, id, request) && InLoop(live.pc)
    requires PcShape(true, live.run, Executing(call, rest, left))
    ensures SegmentShows(d, RecordTool(d, live, e, id, rest, left), request.maxToolRounds)
  {
    hide DurableOk, LiveOk, DShape, CopyShape, IdsBelow, Persist, PcShape, SameIds, Progress, CallIds;
    var run := WithTool(live.run, e, id);
    if AfterTool(live.run, e, rest, left).RoundDone? && d.snap.status != Canceled && !PausesAt(d, run, e.kind) {
      Uncharged(d, live, call, rest, left, id, request);
      AliveInLoop(true, d, live, request);
      DoneShows(d, live, e, id, left, request.maxToolRounds);
    } else {
      var pc := AfterTool(live.run, e, rest, left);
      if pc.RoundDone? { PersistEnds(d, live, run, e, id, pc); } else { PersistShows(d, live, run, e, id, pc, request.maxToolRounds); }
    }
  }

  lemma PersistEnds(d: Durable, live: Live, run: Run, e: Event, id: nat, pc: Pc)
    requires d.snap.status == Canceled || PausesAt(d, run, e.kind)
    ensures var next := Persist(d, live, run, e, id, pc).next; next.Some? ==> next.value.pc == Ended
  {
  }

  /** A round with a call to run is not charged yet. */
  lemma Uncharged(d: Durable, live: Live, call: ToolCall, rest: seq<ToolCall>, left: int, id: nat, request: Request)
    requires Ready(true, d, live, id, request)
    requires InLoop(live.pc) && PcShape(true, live.run, Executing(call, rest, left)) && d.snap.status != Canceled
    ensures live.run.remaining == Recorded(d.journal, request.maxToolRounds)
  {
    hide Faithful, Spent, LiveOk, DShape, IdsBelow, RunShape, Progress, CallIds, Pending, LastChat, RestoredShape, RemainingFrom;
    var n, max := |d.journal|, request.maxToolRounds;
    AliveInLoop(true, d, live, request);
    TakenIds(call, rest, Pending(Progress(live.run.steps)));
    CopyAbreast(true, d, live, request);
    RemainingCompose(d.journal, 0, live.run.applied, n, max);
    RemainingQuiet(d.journal, live.run.applied, n, live.run.remaining, max);
  }

  lemma DoneShows(d: Durable, live: Live, e: Event, id: nat, left: int, max: nat)
    requires Alive(d) && e.kind in {ToolCompleted, ToolFailed} && e.call.Some? && !PausesAt(d, WithTool(live.run, e, id), e.kind)
    requires live.run.remaining == Recorded(d.journal, max)
    ensures SegmentShows(d, Persist(d, live, WithTool(live.run, e, id), e, id, RoundDone(left)), max)
  {
    hide Persist, Jumped, RemainingFrom, PausesAt;
    var run := WithTool(live.run, e, id);
    var stamped := Stamp(e, id, |d.journal| + 1);
    var saved := CarriedOn(d, Noted(run, stamped));
    PersistSavesIs(d, live, run, e, id, RoundDone(left));
    ApplyTwo(d, Append(stamped), Save(saved, Jumped(d, live)));
    RemainingAppend(d.journal, stamped, 0, max);
  }

  lemma OpeningShows(d: Durable, live: Live, id: nat, action: Action, request: Request)
    requires !Torn(d) && Ready(true, d, live, id, request) && ChargeShows(d, live, request.maxToolRounds)
    ensures SegmentShows(d, OpeningSegment(d, live, id, action), request.maxToolRounds)
  {
    hide Ready, Persist, Resume, Noted, Stamp, Jumped, Complete, Progress, TailClean;
    var max := request.maxToolRounds;
    match action
    case Begin => if live.pc == Loaded && Resume(live).Some? { ResumeShows(d, live, id, request); }
    case StartRun => if live.pc == Fresh { StartShows(d, live, id, request); }
    case Delta(text) => if live.pc.Chatting? && d.snap.status != Canceled { DeltaShows(d, live, id, text, max); }
    case Respond(response) =>
      if live.pc.Chatting? {
        PersistShows(d, live, Responded(live.run, response, id), ChatEvent(live.run, response), id,
                     Calling(response.message.calls, live.pc.left), max);
      }
    case _ =>
  }

  lemma ResumeShows(d: Durable, live: Live, id: nat, request: Request)
    requires Ready(true, d, live, id, request) && ChargeShows(d, live, request.maxToolRounds)
    requires live.pc == Loaded && Resume(live).Some? && !Torn(d)
    ensures SegmentShows(d, Segment([], Resume(live)), request.maxToolRounds)
  {
    hide DurableOk, LiveOk, DShape, IdsBelow, CompletedIds, Progress, Pending, LastChat, IncompleteCalls, InProtocol, Round;
    ReadyShapes(true, d, live, id, request);
  }

  lemma StartShows(d: Durable, live: Live, id: nat, request: Request)
    requires Ready(true, d, live, id, request) && live.pc == Fresh
    ensures SegmentShows(d, OpeningSegment(d, live, id, StartRun), request.maxToolRounds)
  {
    hide DurableOk, LiveOk, DShape, CopyShape, IdsBelow, Jumped, RunShape, PausesAt, Complete, Persist;
    var s := BareStep(StartStep).(eventId := Some(id));
    var run, pc := live.run.(steps := live.run.steps + [s]), Chatting(live.run.request.maxToolRounds);
    ReadyShapes(true, d, live, id, request);
    ProgressPush(live.run.steps, s);
    assert Progress(run.steps) == [];
    NotComplete();
    if d.snap.status == Canceled || PausesAt(d, run, RunStarted) {
      PersistEnds(d, live, run, BareEvent(RunStarted), id, pc);
    } else {
      AliveInLoop(true, d, live, request);
      var stamped := Stamp(BareEvent(RunStarted), id, |d.journal| + 1);
      PersistSavesIs(d, live, run, BareEvent(RunStarted), id, pc);
      ApplyTwo(d, Append(stamped), Save(CarriedOn(d, Noted(run, stamped)), Jumped(d, live)));
    }
  }

  lemma NotComplete()
    ensures !Complete([])
  {
  }

  lemma DeltaShows(d: Durable, live: Live, id: nat, text: string, max: nat)
    requires ChargeShows(d, live, max) && live.pc.Chatting? && d.snap.status != Canceled
    ensures SegmentShows(d, OpeningSegment(d, live, id, Delta(text)), max)
  {
    hide Jumped, Complete, Progress;
    var e := Stamp(BareEvent(ChatDelta), id, |d.journal| + 1);
    ApplyOne(d, Append(e));
    assert forall i :: 0 <= i < |d.journal| ==> (d.journal + [e])[i] == d.journal[i];
  }

  lemma CallShows(d: Durable, live: Live, id: nat, action: Action, request: Request)
    requires Ready(true, d, live, id, request) && ChargeShows(d, live, request.maxToolRounds)
    ensures SegmentShows(d, CallSegment(d, live, id, action), request.maxToolRounds)
  {
    hide Ready, Persist, RecordTool, Noted, Stamp, Jumped, Complete, Progress, Enter, Touch, SegmentShows;
    var max, run := request.maxToolRounds, live.run;
    IdleShows(d, live, max);
    match action
    case AskApproval(call, approval) =>
      if CanCall(live.pc, call) {
        PersistShows(d, live, Enter(run, live.pc.left), BareEvent(ApprovalRequested).(call := Some(call), approval := approval), id, live.pc, max);
      }
    case DecideApproval(call) =>
      if CanCall(live.pc, call) {
        PersistShows(d, live, Enter(run, live.pc.left), BareEvent(ApprovalDecided).(call := Some(call)), id, live.pc, max);
      }
    case PauseForApproval(call, requested) =>
      if CanCall(live.pc, call) {
        var waiting := run.(status := Paused, stop := None, remaining := live.pc.left,
                            pendingCalls := [call] + live.pc.calls[1..], pendingApprovals := [requested]);
        PersistShows(d, live, waiting, BareEvent(RunPaused).(call := Some(call), approval := Some(requested)), id, Ended, max);
      }
    case StartTool(call) =>
      if CanCall(live.pc, call) {
        PersistShows(d, live, Enter(run, live.pc.left).(steps := Touch(run.steps, ToolStep, id)), BareEvent(ToolStarted).(call := Some(call)), id,
                     Executing(call, live.pc.calls[1..], live.pc.left), max);
      }
    case SkipStart(call) =>
      if CanCall(live.pc, call) {
        ElsewhereShows(d, [], Live(Enter(run, live.pc.left), Executing(call, live.pc.calls[1..], live.pc.left), false, live.jumped), max);
      }
    case RejectTool(call, error) => if CanCall(live.pc, call) { RejectShows(d, live, id, call, error, request); }
    case _ =>
  }

  lemma IdleShows(d: Durable, live: Live, max: nat)
    requires ChargeShows(d, live, max)
    ensures SegmentShows(d, Segment([], Some(live)), max)
  {
  }

  lemma ElsewhereShows(d: Durable, ws: seq<Write>, c: Live, max: nat)
    requires Elsewhere(c.pc)
    ensures SegmentShows(d, Segment(ws, Some(c)), max)
  {
  }

  lemma RejectShows(d: Durable, live: Live, id: nat, call: ToolCall, error: string, request: Request)
    requires Ready(true, d, live, id, request) && CanCall(live.pc, call)
    ensures SegmentShows(d, CallSegment(d, live, id, RejectTool(call, error)), request.maxToolRounds)
  {
    hide DurableOk, LiveOk, DShape, CopyShape, IdsBelow, SegmentShows, RecordTool, PcShape, RunShape, ShapedSegment;
    var entered := live.(run := Enter(live.run, live.pc.left));
    EnteredReady(true, d, live, id, call, request);
    PositiveRemaining(true, live.run, request);
    SilentSegment(true, d, live, entered, id, request);
    StillReady(true, d, live, entered, id, request);
    RecordShows(d, entered, call, ErrorEvent(call, error), id, live.pc.calls[1..], live.pc.left, request);
  }

  lemma ExecuteShows(d: Durable, live: Live, id: nat, runId: string, tool: Option<ReplayPolicy>, request: Request)
    requires Ready(true, d, live, id, request) && live.pc.Executing?
    ensures SegmentShows(d, ExecuteSegment(d, live, id, runId, tool), request.maxToolRounds)
  {
    hide Ready, RecordTool, PcShape, RunShape, Recorded, PlanCall, ApplyAll, FailWrites;
    var Executing(call, rest, left) := live.pc;
    ReadyShapes(true, d, live, id, request);
    if call.name.Some? {
      match PlanCall(d.ledger, runId, Round(live.run.steps), call.id, tool)
      case Serve(result) => RecordShows(d, live, call, ResultEvent(call, result), id, rest, left, request);
      case ServeError(error) => RecordShows(d, live, call, ErrorEvent(call, error), id, rest, left, request);
      case ToolMissing => RecordShows(d, live, call, ErrorEvent(call, "tool not found"), id, rest, left, request);
      case _ =>
    }
  }

  lemma ReturnShows(d: Durable, live: Live, id: nat, outcome: Outcome, e: Event, request: Request)
    requires Ready(true, d, live, id, request) && live.pc.InTool?
    requires e.kind in {ToolCompleted, ToolFailed} && e.call.Some?
    requires outcome.Returned? ==> outcome.result.id == live.pc.call.id
    ensures SegmentShows(d, Close(live.pc.attempt, outcome, RecordTool(d, live, e, id, live.pc.rest, live.pc.left)), request.maxToolRounds)
  {
    hide Ready, RecordTool, RunShape, ChargeShows;
    var InTool(call, rest, left, attempt) := live.pc;
    ReadyShapes(true, d, live, id, request);
    if attempt == None {
      RecordShows(d, live, call, e, id, rest, left, request);
    } else {
      var w := Put(Concluded(attempt.value, outcome));
      LedgerStillReady(true, d, live, w, id, request);
      RecordShows(Apply(d, w), live, call, e, id, rest, left, request);
      RecordIgnoresLedger(d, w, live, e, id, rest, left);
      var seg := RecordTool(d, live, e, id, rest, left);
      assert ([w] + seg.writes)[1..] == seg.writes;
    }
  }

  lemma ToolShows(d: Durable, live: Live, id: nat, runId: string, action: Action, request: Request)
    requires Ready(true, d, live, id, request) && ChargeShows(d, live, request.maxToolRounds)
    requires action.ToolReturns? && live.pc.InTool? ==> action.result.id == live.pc.call.id
    ensures SegmentShows(d, ToolSegment(d, live, id, runId, action), request.maxToolRounds)
  {
    hide Ready, RecordTool, ExecuteSegment, Close, Recorded, Complete, Progress, RunShape;
    IdleShows(d, live, request.maxToolRounds);
    match action
    case Execute(tool) => if live.pc.Executing? { ExecuteShows(d, live, id, runId, tool, request); }
    case ToolReturns(result) =>
      if live.pc.InTool? { ReturnShows(d, live, id, Returned(result), ResultEvent(live.pc.call, result), request); }
    case ToolRaises(error) =>
      if live.pc.InTool? { ReturnShows(d, live, id, Raised(error), ErrorEvent(live.pc.call, error), request); }
    case EndRound => if live.pc.RoundDone? { ReadyShapes(true, d, live, id, request); }
    case _ =>
  }

  lemma ClosingShows(d: Durable, live: Live, id: nat, action: Action, max: nat)
    requires ChargeShows(d, live, max)
    ensures SegmentShows(d, ClosingSegment(d, live, id, action), max)
  {
    hide Persist, FailWrites, FinallyWrites, PausedAt, Stamp, Jumped, Stopped, FinishRun, IsCheckpoint, SegmentShows;
    IdleShows(d, live, max);
    match action
    case Finish =>
      if live.pc.Broken? || live.pc.Calling? { ElsewhereShows(d, [], Live(FinishRun(live.run, live.pc), Stopping, false, live.jumped), max); }
    case WriteMemory =>
      if live.pc == Stopping {
        PersistShows(d, live, live.run.(steps := live.run.steps + [BareStep(MemoryStep).(eventId := Some(id))]),
                     BareEvent(MemoryWritten), id, Stopping, max);
      }
    case StopRun =>
      if live.pc == Stopping && live.run.stop.Some? {
        PersistShows(d, live, Stopped(live.run, id), StopEvent(StopBy(live.run.stop.value)), id, Ended, max);
      }
    case LatePause =>
      var seg := ClosingSegment(d, live, id, LatePause);
      if seg.next != Some(live) { ElsewhereShows(d, seg.writes, seg.next.value, max); }
    case Raise => NobodyShows(d, FailWrites(d, live, id), max);
    case Interrupt => NobodyShows(d, FinallyWrites(d, live), max);
    case Return => NobodyShows(d, FinallyWrites(d, live), max);
    case _ =>
  }

  lemma NobodyShows(d: Durable, ws: seq<Write>, max: nat)
    ensures SegmentShows(d, Segment(ws, None), max)
  {
  }

  lemma ActShows(d: Durable, live: Live, id: nat, runId: string, action: Action, request: Request)
    requires !Torn(d) && Ready(true, d, live, id, request) && ChargeShows(d, live, request.maxToolRounds)
    requires action.ToolReturns? && live.pc.InTool? ==> action.result.id == live.pc.call.id
    ensures SegmentShows(d, ActSegment(d, live, id, runId, action), request.maxToolRounds)
  {
    hide Ready, ChargeShows, SegmentShows, OpeningSegment, CallSegment, ToolSegment, ClosingSegment;
    OpeningShows(d, live, id, action, request);
    CallShows(d, live, id, action, request);
    ToolShows(d, live, id, runId, action, request);
    ClosingShows(d, live, id, action, request.maxToolRounds);
  }

  // ------------------------------------------------------------------------- runs

  ghost predicate WorldShows(w: World, max: nat) {
    forall c :: c in w.copies ==> ChargeShows(w.d, c, max)
  }

  lemma StepShows(w: World, runId: string, step: Label, request: Request)
    requires WorldInStep(w, request) && WorldShape(true, w, request) && WorldShows(w, request.maxToolRounds)
    requires Alone(w, step.op) && Sane(w, step.op) && !Torn(w.d)
    ensures WorldShows(Next(w, runId, step), request.maxToolRounds)
  {
    hide WorldInStep, WorldShape, ActSegment, CancelWrites, Recorded, Complete, Progress, GoodReply, Ready;
    var d, max := w.d, request.maxToolRounds;
    if step.cut == None {
      match step.op
      case Load => assert ApplyAll(d, []) == d;
      case RequestPause =>
        if d.snap.status == Running { ApplyOne(d, Save(d.snap.(pauseRequest := true), {})); }
      case Cancel => CancelShows(w, runId, step, max);
      case Act(i, action) =>
        if i < |w.copies| {
          ReadyCopy(true, w, i, request);
          assert w.copies[i] in w.copies;
          ActShows(d, w.copies[i], w.nextId, runId, action, request);
          FewCopies(w, request);
        }
      case _ =>
    }
  }

  lemma FewCopies(w: World, request: Request)
    requires WorldInStep(w, request)
    ensures |w.copies| <= 1
  {
  }

  lemma CancelShows(w: World, runId: string, step: Label, max: nat)
    requires step.op.Cancel? && step.cut == None && WorldShows(w, max)
    ensures WorldShows(Next(w, runId, step), max)
  {
    hide Recorded, Complete, Progress;
    var ws := CancelWrites(w.d, w.nextId);
    if ws != [] {
      assert ws == [ws[0], ws[1]];
      ApplyTwo(w.d, ws[0], ws[1]);
    }
  }

  lemma {:induction false} RunsShow(ws: seq<World>, request: Request, runId: string, steps: seq<Label>, k: nat)
    requires UntornRun(ws, request, runId, steps) && SaneRun(ws, steps) && k < |ws|
    ensures WorldShows(ws[k], request.maxToolRounds)
    decreases k
  {
    hide WorldInStep, WorldShape, WorldShows, Next, Alone, Sane, Torn;
    if k > 0 {
      RunsShow(ws, request, runId, steps, k - 1);
      RunsShape(true, ws, request, runId, steps, k - 1);
      StepShows(ws[k - 1], runId, steps[k - 1], request);
    } else {
      StartShowsNothing(request);
    }
  }

  lemma StartShowsNothing(request: Request)
    ensures WorldShows(StartWorld(request), request.maxToolRounds)
  {
  }

  // ------------------------------------------------------------------ main results

  /** In a sane untorn run that has not stopped, restoring a snapshot gives exactly the rounds the
      run has left, if and only if its round has not been charged since its response was recorded,
      or nothing was recorded since the snapshot and the snapshot itself is charged as often. */
  lemma RoundsLeftExactly(ws: seq<World>, request: Request, runId: string, steps: seq<Label>, k: nat, live: Live, s: Run)
    requires UntornRun(ws, request, runId, steps) && SaneRun(ws, steps) && k < |ws|
    requires Current(ws[k], live) && Saved(ws[k].d, s) && Alive(ws[k].d)
    ensures var journal := ws[k].d.journal;
            Restore(s, journal).0.remaining == live.run.remaining
            <==> live.run.remaining == Recorded(journal, request.maxToolRounds)
                 || (TailClean(journal, s.applied) && s.remaining == live.run.remaining)
  {
    hide UntornRun, SaneRun, DurableOk, CopyShape, DShape, LiveOk, Faithful, Restore, JumpOk, Recorded;
    RunsShape(true, ws, request, runId, steps, k);
    CurrentIsClean(true, ws[k], live, request);
    LeftMeans(ws[k].d, live, s, request);
  }

  /** Told by where the execution stands: when the last result of a round has just been stored,
      every snapshot restores exactly the rounds left; once the follow-up is under way, none does,
      unless nothing was left to charge. */
  lemma RoundsLeftByPlace(ws: seq<World>, request: Request, runId: string, steps: seq<Label>, k: nat, live: Live, s: Run)
    requires UntornRun(ws, request, runId, steps) && SaneRun(ws, steps) && k < |ws|
    requires live in ws[k].copies && Current(ws[k], live) && Saved(ws[k].d, s) && Alive(ws[k].d)
    ensures var restored := Restore(s, ws[k].d.journal).0;
            && (live.pc.RoundDone? ==> restored.remaining == live.run.remaining)
            && (live.pc.Chatting? && RoundComplete(live.run) && ws[k].d.snap.remaining > 0 ==>
                  restored.remaining > live.run.remaining)
  {
    hide UntornRun, SaneRun, DurableOk, DShape, LiveOk, Faithful, Restore, JumpOk, Recorded, Complete, RunShape, RoundComplete, Progress;
    var d := ws[k].d;
    RunsShow(ws, request, runId, steps, k);
    RunsShape(true, ws, request, runId, steps, k);
    RoundsLeftExactly(ws, request, runId, steps, k, live, s);
    if live.pc.Chatting? && RoundComplete(live.run) {
      CopyRunShape(true, d, live, request);
      CompleteMeans(live.run, request);
      CurrentIsClean(true, ws[k], live, request);
      SnapRestoresMore(d, live, s, request);
    }
  }

  /** What a snapshot restores is at least what the stored one has left. */
  lemma SnapRestoresMore(d: Durable, live: Live, s: Run, request: Request)
    requires Abreast(true, d, live, request) && Saved(d, s) && TailClean(d.journal, d.snap.applied)
    ensures d.snap.remaining <= Restore(s, d.journal).0.remaining
  {
    hide RunShape, Faithful, EchoOk, RestoredShape, JournalOk, JumpOk, Restore, Replayable, RemainingFrom, BuiltTrace, Undiminished;
    var n, max := |d.journal|, request.maxToolRounds;
    assert Charged(true, d, s, max);
    SavedReplays(d, s, request);
    RestoreBuilds(s, d.journal, max);
    RemainingCompose(d.journal, s.applied, d.snap.applied, n, s.remaining);
    RemainingQuiet(d.journal, d.snap.applied, n, RemainingFrom(d.journal, s.applied, d.snap.applied, s.remaining), max);
  }
}
