/** Which interrupted and paused runs may be taken up again (agent_recovery.py:44, agent_state.py),
    and that those which may are. */
module Eligibility {
  import opened Wrappers
  import opened Content
  import opened Runs
  import opened Recovery
  import opened Ledger
  import opened Machine
  import opened Safety
  import opened Agreement
  import opened Replaying
  import opened Exclusive

  // ------------------------------------------------------------------ the judgement

  /** The end of the run has begun: going on might write its memories twice. */
  predicate Finalizing(steps: seq<Step>) {
    exists s :: s in steps && (s.kind == StopStep || s.kind == MemoryStep)
  }

  /** Every open call waits for an approval, so none of their tools has run. */
  predicate AllAwaited(run: Run, rest: seq<ToolCall>) {
    run.pendingApprovals != [] && forall c :: c in rest ==> c.id in run.pendingApprovals
  }

  function OpenCalls(run: Run): seq<ToolCall> {
    IncompleteCalls(CallsOf(run.response), CompletedIds(run.steps))
  }

  /** A restored run can go on without doing anything twice or blindly: it has not begun to end;
      without a response it has done nothing but start; and its open calls all wait for approval,
      or executing them in order meets no call whose outcome is unknown. */
  ghost predicate CanGoOn(run: Run, ledger: seq<Attempt>, runId: string, tools: seq<Option<ReplayPolicy>>, outcomes: seq<Outcome>)
    requires |tools| == |outcomes| == |OpenCalls(run)|
  {
    var rest := OpenCalls(run);
    && !Finalizing(run.steps)
    && (run.response == None ==> forall s :: s in run.steps ==> s.kind == StartStep)
    && (run.response.Some? ==>
          || AllAwaited(run, rest)
          || (!Blocks(ledger, runId, Round(run.steps), rest, tools, outcomes) && UnnamedReady(ledger, Round(run.steps), rest)))
  }

  /** The classifier judges a journal that cannot be replayed, and a run that has stopped, not
      eligible, and any other exactly by whether it can go on; the checkpoint it names says why. */
  lemma InspectMeans(run: Run, events: seq<Event>, ledger: seq<Attempt>, runId: string,
                     tools: seq<Option<ReplayPolicy>>, outcomes: seq<Outcome>)
    requires UniqueRows(ledger) && ResultsKept(ledger)
    requires |tools| == |outcomes| == |OpenCalls(Restore(run, events).0)|
    ensures var (restored, error) := Restore(run, events);
            var (judged, eligible, checkpoint) := Inspect(run, events, Some(ledger));
            && judged == restored
            && (error.Some? ==> !eligible && checkpoint == IncompleteTrace)
            && (error == None && restored.status in {Done, Failed, Canceled} ==> !eligible && checkpoint == StoppedRun)
            && (error == None && restored.status !in {Done, Failed, Canceled} ==>
                  && (eligible <==> CanGoOn(restored, ledger, runId, tools, outcomes))
                  && (checkpoint == FinalizationIncomplete <==> Finalizing(restored.steps))
                  && (checkpoint == ToolReplayReady ==> !Blocks(ledger, runId, Round(restored.steps), OpenCalls(restored), tools, outcomes))
                  && (checkpoint == ApprovalPending ==> OpenCalls(restored) != [] && AllAwaited(restored, OpenCalls(restored)))
                  && (checkpoint in {ToolRoundCompleted, ChatOnlyCompleted} ==> restored.response.Some? && OpenCalls(restored) == []))
  {
    hide Restore, Blocks, ReplayReady, UnnamedReady, UniqueRows, ResultsKept, Round, IncompleteCalls, CompletedIds;
    var restored := Restore(run, events).0;
    ClassifierAgreesWithExecutor(ledger, runId, Round(restored.steps), OpenCalls(restored), tools, outcomes);
    NothingBlocks(ledger, runId, Round(restored.steps));
  }

  lemma NothingBlocks(ledger: seq<Attempt>, runId: string, round: nat)
    ensures !Blocks(ledger, runId, round, [], [], []) && UnnamedReady(ledger, round, [])
  {
  }

  // ----------------------------------------------------------------- interrupted runs

  /** A recovery that gets through stores the restored run: as it is when its journal has stopped
      it, else paused for the given cause with what the classifier judges of it. */
  lemma SuspendStores(w: World, runId: string, step: Label, request: Request)
    requires WorldInStep(w, request) && w.d.snap.status == Running && step.op.Suspend? && step.cut == None
    ensures var (restored, error) := Restore(w.d.snap, w.d.journal);
            var after := Next(w, runId, step).d;
            && error == None
            && (restored.status != Running ==> after.snap == restored)
            && (restored.status == Running ==>
                  var (_, eligible, checkpoint) := Inspect(w.d.snap, w.d.journal, Some(after.ledger));
                  && after.snap.status == Paused && after.snap.pause == Some(Pause(step.op.cause, checkpoint, eligible))
                  && after.snap.steps == restored.steps && after.snap.response == restored.response
                  && after.snap.remaining == restored.remaining)
  {
    hide Inspect, UnknownPuts, DurableOk, Restore;
    var d, cause := w.d, step.op.cause;
    var first := UnknownPuts(d.ledger);
    UnknownPutsTouch(d.ledger);
    LedgerWritesKeepRun(d, first);
    SuspendSplit(d, w.nextId, cause);
    RestoredInStep(d, request);
    var d1 := ApplyAll(d, first);
    InspectRestores(d.snap, d.journal, Some(d1.ledger));
    ApplyConcat(d, first, SuspendTail(d1, w.nextId, cause));
    TailStores(d1, w.nextId, cause);
  }

  lemma TailStores(d: Durable, id: nat, cause: PauseCause)
    ensures var (run, eligible, checkpoint) := Inspect(d.snap, d.journal, Some(d.ledger));
            var after := ApplyAll(d, SuspendTail(d, id, cause));
            && after.ledger == d.ledger
            && (run.status != Running ==> after.snap == run)
            && (run.status == Running ==>
                  && after.snap.status == Paused && after.snap.pause == Some(Pause(cause, checkpoint, eligible))
                  && after.snap.steps == run.steps && after.snap.response == run.response && after.snap.remaining == run.remaining)
  {
    hide Inspect;
    var ws := SuspendTail(d, id, cause);
    if |ws| == 1 {
      ApplyOne(d, ws[0]);
    } else {
      assert ws == [ws[0], ws[1]];
      ApplyTwo(d, ws[0], ws[1]);
    }
  }

  /** A ledger the application wrote, in any run at all, is one the classifier can judge. */
  lemma RowsAreJudgeable(ledger: seq<Attempt>, runId: string)
    requires RowsOk(ledger, runId)
    ensures UniqueRows(ledger) && ResultsKept(ledger) && forall id :: !HasUnscoped(ledger, id)
  {
  }

  /** Over every exclusive run: an interrupted run that its journal has not stopped is stored as
      resumable exactly when it can go on, whatever its tools will do. */
  lemma InterruptedIsJudged(ws: seq<World>, request: Request, runId: string, steps: seq<Label>, i: nat,
                            tools: seq<Option<ReplayPolicy>>, outcomes: seq<Outcome>)
    requires ExclusiveRun(ws, request, runId, steps) && i < |steps| && ws[i].d.snap.status == Running
    requires steps[i].op.Suspend? && steps[i].cut == None
    requires Restore(ws[i].d.snap, ws[i].d.journal).0.status == Running
    requires |tools| == |outcomes| == |OpenCalls(Restore(ws[i].d.snap, ws[i].d.journal).0)|
    ensures var stored, restored := ws[i + 1].d.snap, Restore(ws[i].d.snap, ws[i].d.journal).0;
            && stored.status == Paused && stored.pause.Some? && stored.pause.value.cause == steps[i].op.cause
            && (stored.pause.value.resumable <==> CanGoOn(restored, ws[i + 1].d.ledger, runId, tools, outcomes))
  {
    hide WorldInStep, Next, Restore, Inspect, CanGoOn, RowsOk, UniqueRows, ResultsKept, SentOk, RetriesOk, CopyOk, Alone;
    RunsInStep(ws, request, runId, steps, i);
    RunsAreOk(ws, request, runId, steps, i + 1);
    RowsAreJudgeable(ws[i + 1].d.ledger, runId);
    assert ws[i + 1] == Next(ws[i], runId, steps[i]);
    SuspendStores(ws[i], runId, steps[i], request);
    InspectMeans(ws[i].d.snap, ws[i].d.journal, ws[i + 1].d.ledger, runId, tools, outcomes);
  }

  /** In particular a call with a non-replayable attempt of this round that was started and never
      concluded keeps the run from going on, until an operator has decided about it. */
  lemma UnknownOutcomeWaits(run: Run, ledger: seq<Attempt>, runId: string, call: ToolCall,
                            tools: seq<Option<ReplayPolicy>>, outcomes: seq<Outcome>)
    requires UniqueRows(ledger) && ResultsKept(ledger) && |tools| == |outcomes| == |OpenCalls(run)|
    requires run.response.Some? && call in OpenCalls(run) && !AllAwaited(run, OpenCalls(run))
    requires var latest := Latest(ledger, Round(run.steps), call.id);
             latest.Some? && NeedsOperator(latest.value)
    ensures !CanGoOn(run, ledger, runId, tools, outcomes)
  {
    hide UniqueRows, ResultsKept, Round, IncompleteCalls, CompletedIds, Blocks, Finalizing, UnnamedReady, AllAwaited;
    ClassifierAgreesWithExecutor(ledger, runId, Round(run.steps), OpenCalls(run), tools, outcomes);
    assert !Resumable(ledger, Round(run.steps), call.id);
  }

  // -------------------------------------------------------------------- going on

  /** A loaded run paused at a checkpoint is resumed exactly when the pause says that it may be:
      it is running again, and asks the model or takes up exactly its open calls. */
  lemma ResumableIsResumed(run: Run, yielded: bool, jumped: set<nat>)
    requires run.status == Paused && run.pause.Some?
    ensures var next := Resume(Live(run, Loaded, yielded, jumped));
            && (next.Some? <==> run.pause.value.resumable)
            && (next.Some? ==>
                  && next.value.run.status == Running && next.value.run.pause == None && !next.value.run.pauseRequest
                  && next.value.run.steps == run.steps && next.value.run.response == run.response
                  && next.value.run.pendingCalls == [] && next.value.run.pendingApprovals == []
                  && next.value.pc == (if run.response == None then Chatting(run.request.maxToolRounds)
                                       else if OpenCalls(run) == [] && CallsOf(run.response) != []
                                       then Chatting(if run.remaining > 1 then run.remaining - 1 else 0)
                                       else Calling(OpenCalls(run), run.remaining)))
  {
    hide CompletedIds;
    if run.response.Some? && CallsOf(run.response) == [] { assert OpenCalls(run) == []; }
  }

  /** The pause a user asks for is taken at the next event after which a run can be taken up again,
      and it is: the run is stored as paused, with that event in its journal, and resumable. */
  lemma PauseIsHonoured(d: Durable, live: Live, run: Run, e: Event, id: nat, pc: Pc)
    requires d.snap.status == Running && d.snap.pauseRequest && run.status == Running
    requires e.kind in {RunStarted, ChatCompleted, ApprovalRequested, ApprovalDecided, ToolCompleted, ToolFailed}
    ensures var seg := Persist(d, live, run, e, id, pc);
            var after := ApplyAll(d, seg.writes);
            && after.snap.status == Paused && CanResume(after.snap) && !after.snap.pauseRequest
            && after.snap.pause == Some(Pause(Manual, AtEvent(e.kind), true)) && after.snap.steps == run.steps
            && |after.journal| == |d.journal| + 2 && after.journal[|d.journal|].kind == e.kind
            && after.journal[|d.journal| + 1].kind == RunPaused && after.snap.applied == |after.journal|
            && seg.next.Some? && seg.next.value.pc == Ended && seg.next.value.run == after.snap
            && Resume(Live(after.snap, Loaded, false, {})).Some?
  {
    hide Jumped, IncompleteCalls, CompletedIds;
    var n, jumped := |d.journal|, Jumped(d, live);
    var stamped, p := Stamp(e, id, n + 1), Stamp(BareEvent(RunPaused), id + 1, n + 2);
    var paused := PausedAt(Noted(run, stamped), e.kind, p);
    var ws := [Append(stamped), Append(p), Save(paused, jumped), Save(paused, jumped)];
    assert Persist(d, live, run, e, id, pc).writes == ws;
    assert ws[1..] == [Append(p), Save(paused, jumped), Save(paused, jumped)];
    ApplyThree(Apply(d, Append(stamped)), Append(p), Save(paused, jumped), Save(paused, jumped));
    ResumableIsResumed(paused, false, {});
  }

  /** Without a request, or at an event after which the run could not be taken up again, the
      execution goes on, and a request is carried along to the next event. */
  lemma RequestIsCarried(d: Durable, live: Live, run: Run, e: Event, id: nat, pc: Pc)
    requires d.snap.status != Canceled
    requires d.snap.status == Running && d.snap.pauseRequest && run.status == Running ==>
               e.kind !in {RunStarted, ChatCompleted, ApprovalRequested, ApprovalDecided, ToolCompleted, ToolFailed}
    ensures var seg := Persist(d, live, run, e, id, pc);
            var after := ApplyAll(d, seg.writes);
            && seg.next.Some? && seg.next.value.run == after.snap && seg.next.value.pc == pc && seg.next.value.yielded
            && after.journal == d.journal + [Stamp(e, id, |d.journal| + 1)] && after.snap.applied == |after.journal|
            && after.snap.status == run.status && after.snap.steps == run.steps && after.snap.pause == run.pause
            && after.snap.pauseRequest
               == (run.pauseRequest || (d.snap.status == Running && d.snap.pauseRequest && run.status == Running))
  {
    var ws := Persist(d, live, run, e, id, pc).writes;
    assert ws == [ws[0], ws[1]];
    ApplyTwo(d, ws[0], ws[1]);
  }

  /** A request that arrives while the last event is handed on is found right behind it, and
      honoured the same way. */
  lemma LatePauseIsTaken(d: Durable, live: Live, id: nat, runId: string)
    requires live.yielded && live.run.trace != []
    ensures var kind := live.run.trace[|live.run.trace| - 1].kind;
            var seg := ActSegment(d, live, id, runId, LatePause);
            var after := ApplyAll(d, seg.writes);
            if d.snap.status == Running && d.snap.pauseRequest && live.run.status == Running
               && kind in {RunStarted, ChatCompleted, ApprovalRequested, ApprovalDecided, ToolCompleted, ToolFailed} then
              && after.snap.status == Paused && after.snap.pause == Some(Pause(Manual, AtEvent(kind), true))
              && !after.snap.pauseRequest && after.snap.steps == live.run.steps
              && after.journal == d.journal + [Stamp(BareEvent(RunPaused), id, |d.journal| + 1)]
              && after.snap.applied == |after.journal|
              && seg.next.Some? && seg.next.value.pc == Ended && seg.next.value.run == after.snap
            else after == d && seg.next == Some(live)
  {
    hide OpeningSegment, CallSegment, ToolSegment, Range;
    var ws := ActSegment(d, live, id, runId, LatePause).writes;
    if ws != [] {
      assert ws == [ws[0], ws[1]];
      ApplyTwo(d, ws[0], ws[1]);
    }
  }

  /** A run that waits for the approval of a call is resumed, as long as its response is known, at
      just that call and those behind it, with the rounds that were left. */
  lemma WaitingIsResumed(d: Durable, live: Live, id: nat, call: ToolCall, requested: string)
    requires d.snap.status != Canceled && CanCall(live.pc, call) && live.run.pause == None && live.run.response.Some?
    ensures var after := ApplyAll(d, CallSegment(d, live, id, PauseForApproval(call, requested)).writes).snap;
            var next := Resume(Live(after, Loaded, false, {}));
            && after.status == Paused && after.pendingApprovals == [requested] && after.response == live.run.response
            && next.Some? && next.value.run.status == Running && next.value.run.pendingApprovals == []
            && next.value.pc == Calling([call] + live.pc.calls[1..], live.pc.left)
  {
    hide Range;
    var ws := CallSegment(d, live, id, PauseForApproval(call, requested)).writes;
    assert ws == [ws[0], ws[1]];
    ApplyTwo(d, ws[0], ws[1]);
  }

  /** What is asked of a running run is stored for its execution to find, and of no other. */
  lemma RequestIsStored(w: World, runId: string)
    ensures var after := Next(w, runId, Label(RequestPause, None)).d;
            if w.d.snap.status == Running then after.snap == w.d.snap.(pauseRequest := true) else after == w.d
  {
    ApplyOne(w.d, Save(w.d.snap.(pauseRequest := true), {}));
  }

  /** However a stream ends, the copy it worked on is what is stored, unless the run was canceled or
      failed behind it. */
  lemma StreamIsStored(d: Durable, live: Live, id: nat, runId: string)
    ensures var after := ApplyAll(d, ActSegment(d, live, id, runId, Interrupt).writes);
            && ActSegment(d, live, id, runId, Interrupt).next == None
            && (live.pc == Ended ==> ActSegment(d, live, id, runId, Return) == ActSegment(d, live, id, runId, Interrupt))
            && after.snap == (if d.snap.status in {Canceled, Failed} then d.snap else live.run)
            && after.journal == d.journal && after.ledger == d.ledger
  {
    hide *;
    EndIsClosing(d, live, id, runId);
    FinallyStores(d, live);
  }

  lemma EndIsClosing(d: Durable, live: Live, id: nat, runId: string)
    ensures ActSegment(d, live, id, runId, Interrupt) == Segment(FinallyWrites(d, live), None)
    ensures live.pc == Ended ==> ActSegment(d, live, id, runId, Return) == Segment(FinallyWrites(d, live), None)
  {
    hide OpeningSegment, CallSegment, ToolSegment, FinallyWrites;
  }

  lemma FinallyStores(d: Durable, live: Live)
    ensures var after := ApplyAll(d, FinallyWrites(d, live));
            && after.snap == (if d.snap.status in {Canceled, Failed} then d.snap else live.run)
            && after.journal == d.journal && after.ledger == d.ledger
  {
    ApplyOne(d, Save(live.run, live.jumped));
  }

  /** A failure of a running execution is recorded: the run is stored as failed and says so last in
      its journal. A run that has ended or is paused is stored as it is, a canceled one left alone. */
  lemma FailureIsStored(d: Durable, live: Live, id: nat)
    ensures var after := ApplyAll(d, FailWrites(d, live, id));
            && (d.snap.status == Canceled ==> after == d)
            && (d.snap.status != Canceled && live.run.status != Running ==> after.snap == live.run && after.journal == d.journal)
            && (d.snap.status != Canceled && live.run.status == Running ==>
                  && after.snap.status == Failed && after.snap.steps == live.run.steps && after.snap.stop == None
                  && after.snap.pendingCalls == [] && after.snap.pendingApprovals == []
                  && after.journal == d.journal + [Stamp(StopEvent(FailedText), id, |d.journal| + 1)]
                  && after.snap.applied == |after.journal|)
  {
    hide Range;
    var run := live.run;
    var save := Save(run, live.jumped);
    if d.snap.status != Canceled {
      if run.status == Running {
        var ws := FailWrites(d, live, id);
        assert ws == [ws[0], ws[1], ws[2]];
        ApplyThree(d, ws[0], ws[1], ws[2]);
      } else if run.status == Failed || run.status == Canceled {
        ApplyOne(d, save);
      } else {
        ApplyTwo(d, save, save);
      }
    }
  }

  /** So is one noticed from outside, which finds a running run and no other. */
  lemma MarkedFailed(d: Durable, id: nat)
    ensures var after := ApplyAll(d, MarkFailedWrites(d, id));
            if d.snap.status == Running then
              && after.snap.status == Failed && after.snap.steps == d.snap.steps && after.snap.stop == None
              && after.snap.pendingCalls == [] && after.snap.pendingApprovals == []
              && after.journal == d.journal + [Stamp(StopEvent(FailedText), id, |d.journal| + 1)]
              && after.snap.applied == |after.journal|
            else after == d
  {
    var ws := MarkFailedWrites(d, id);
    if ws != [] {
      assert ws == [ws[0], ws[1]];
      ApplyTwo(d, ws[0], ws[1]);
    }
  }

  // -------------------------------------------------------------------- memories

  /** A memory that is written is recorded with its event, before the run stops. */
  lemma MemoryIsJournalled(d: Durable, live: Live, id: nat, runId: string)
    requires live.pc == Stopping && d.snap.status != Canceled
    ensures var seg := ActSegment(d, live, id, runId, WriteMemory);
            && seg.writes != [] && seg.writes[0].Append?
            && seg.writes[0].event == Stamp(BareEvent(MemoryWritten), id, |d.journal| + 1)
            && seg.next.Some? && seg.next.value.pc == Stopping
            && seg.next.value.run.steps == live.run.steps + [BareStep(MemoryStep).(eventId := Some(id))]
  {
    hide OpeningSegment, CallSegment, ToolSegment, Range;
  }

  /** No memory is written twice by going on: over every exclusive run, once the journal holds the
      event of a written memory or the reason of a stop behind the stored snapshot, recovery stores
      the run as stopped or as not to be resumed, and nothing resumes it. */
  lemma NoMemoryTwice(ws: seq<World>, request: Request, runId: string, steps: seq<Label>, i: nat, j: nat)
    requires ExclusiveRun(ws, request, runId, steps) && i < |steps| && ws[i].d.snap.status == Running
    requires steps[i].op.Suspend? && steps[i].cut == None
    requires ws[i].d.snap.applied <= j < |ws[i].d.journal| && EndsIt(ws[i].d.journal[j])
    ensures var stored := ws[i + 1].d.snap; stored.status != Running && Resume(Live(stored, Loaded, false, {})) == None
  {
    hide Restore, Inspect, WorldInStep, Replayable, JournalOk, ReplayedTo, Finalizing, EndsIt;
    var d := ws[i].d;
    RunsInStep(ws, request, runId, steps, i);
    SuspendStores(ws[i], runId, steps[i], request);
    RunningReplays(ws[i], request);
    ReplayableIsWithin(d.snap, d.journal);
    ReplayedEnds(d.snap, d.journal, request.maxToolRounds);
    ReplayedFinalizes(d.snap, d.journal, |d.journal|, request.maxToolRounds);
    FinalizingWaits(d.snap, d.journal, ws[i + 1].d.ledger);
    RestoreStatus(d.snap, d.journal);
  }

  lemma RunningReplays(w: World, request: Request)
    requires WorldInStep(w, request)
    ensures JournalOk(w.d.journal, request.maxToolRounds) && Replayable(w.d.snap, w.d.journal)
    ensures w.d.snap.request.maxToolRounds == request.maxToolRounds
  {
    assert Saved(w.d, w.d.snap);
    SavedReplays(w.d, w.d.snap, request);
  }

  lemma FinalizingWaits(run: Run, events: seq<Event>, ledger: seq<Attempt>)
    requires Restore(run, events).1 == None && Finalizing(Restore(run, events).0.steps)
    ensures !Inspect(run, events, Some(ledger)).1
  {
    hide Restore;
  }

  // ------------------------------------------------------------- what replay restores

  /** A request for this approval stands in the journal, and no response or end came after it. */
  predicate AwaitedSince(journal: seq<Event>, from: nat, end: nat, id: string)
    requires from <= end <= |journal|
  {
    exists i :: from <= i < end && journal[i].kind == ApprovalRequested && journal[i].approval == Some(id)
                && forall j :: i < j < end ==> journal[j].kind !in {ChatCompleted, RunStopped}
  }

  predicate NothingSettles(journal: seq<Event>, from: nat, end: nat)
    requires from <= end <= |journal|
  {
    forall j :: from <= j < end ==> journal[j].kind !in {ChatCompleted, RunStopped}
  }

  /** A restored run waits for exactly the approvals asked for since the last response, or since
      the snapshot when there was none. */
  lemma {:induction false} ReplayedAwaits(run: Run, journal: seq<Event>, k: nat, max: nat, id: string)
    requires JournalOk(journal, max) && Replayable(run, journal) && run.request.maxToolRounds == max
    requires run.applied <= k <= |journal|
    ensures id in ReplayedTo(run, journal, k).pendingApprovals
            <==> AwaitedSince(journal, run.applied, k, id)
                 || (id in run.pendingApprovals && NothingSettles(journal, run.applied, k))
    decreases k
  {
    hide Replayable, ReplayedTo, Effect, Record;
    if k > run.applied {
      ReplayedAwaits(run, journal, k - 1, max, id);
      ReplayedStep(run, journal, k - 1, max);
      assert EventOk(journal[k - 1], max);
      EffectAwaits(ReplayedTo(run, journal, k - 1), journal[k - 1], max, id);
      AwaitedStep(journal, run.applied, k, id);
    } else {
      ReplayedEnds(run, journal, max);
    }
  }

  lemma AwaitedStep(journal: seq<Event>, from: nat, k: nat, id: string)
    requires from < k <= |journal|
    ensures var e := journal[k - 1];
            AwaitedSince(journal, from, k, id)
            <==> (e.kind == ApprovalRequested && e.approval == Some(id))
                 || (e.kind !in {ChatCompleted, RunStopped} && AwaitedSince(journal, from, k - 1, id))
  {
    var e := journal[k - 1];
    if AwaitedSince(journal, from, k, id) {
      var i :| from <= i < k && journal[i].kind == ApprovalRequested && journal[i].approval == Some(id)
               && forall j :: i < j < k ==> journal[j].kind !in {ChatCompleted, RunStopped};
      if i < k - 1 { assert AwaitedSince(journal, from, k - 1, id); }
    }
  }

  lemma EffectAwaits(mid: Run, e: Event, max: nat, id: string)
    requires EventOk(e, max) && Effect(mid, e).Success?
    ensures id in Record(Effect(mid, e).value, e).pendingApprovals
            <==> (e.kind == ApprovalRequested && e.approval == Some(id))
                 || (e.kind !in {ChatCompleted, RunStopped} && id in mid.pendingApprovals)
  {
    hide Round;
  }

  /** An approval was asked for, and no response or end came after it. */
  predicate SomeAwaited(journal: seq<Event>, from: nat, end: nat)
    requires from <= end <= |journal|
  {
    exists i :: from <= i < end && journal[i].kind == ApprovalRequested && journal[i].approval.Some?
                && forall j :: i < j < end ==> journal[j].kind !in {ChatCompleted, RunStopped}
  }

  /** And its pending calls are then all calls of its response. */
  lemma {:induction false} ReplayedPending(run: Run, journal: seq<Event>, k: nat, max: nat)
    requires JournalOk(journal, max) && Replayable(run, journal) && run.request.maxToolRounds == max
    requires run.applied <= k <= |journal|
    ensures ReplayedTo(run, journal, k).pendingCalls
            == if SomeAwaited(journal, run.applied, k) then CallsOf(ReplayedTo(run, journal, k).response)
               else if NothingSettles(journal, run.applied, k) then run.pendingCalls else []
    decreases k
  {
    hide Replayable, ReplayedTo, Effect, Record, CallsOf;
    if k > run.applied {
      ReplayedPending(run, journal, k - 1, max);
      ReplayedStep(run, journal, k - 1, max);
      assert EventOk(journal[k - 1], max);
      EffectPending(ReplayedTo(run, journal, k - 1), journal[k - 1], max);
      SomeAwaitedStep(journal, run.applied, k);
    } else {
      ReplayedEnds(run, journal, max);
    }
  }

  lemma SomeAwaitedStep(journal: seq<Event>, from: nat, k: nat)
    requires from < k <= |journal|
    ensures var e := journal[k - 1];
            SomeAwaited(journal, from, k)
            <==> (e.kind == ApprovalRequested && e.approval.Some?)
                 || (e.kind !in {ChatCompleted, RunStopped} && SomeAwaited(journal, from, k - 1))
  {
    if SomeAwaited(journal, from, k) {
      var i :| from <= i < k && journal[i].kind == ApprovalRequested && journal[i].approval.Some?
               && forall j :: i < j < k ==> journal[j].kind !in {ChatCompleted, RunStopped};
      if i < k - 1 { assert SomeAwaited(journal, from, k - 1); }
    }
  }

  lemma EffectPending(mid: Run, e: Event, max: nat)
    requires EventOk(e, max) && Effect(mid, e).Success?
    ensures var next := Record(Effect(mid, e).value, e);
            next.pendingCalls == (if e.kind in {ChatCompleted, RunStopped} then []
                                  else if e.kind == ApprovalRequested && e.approval.Some? then CallsOf(next.response)
                                  else mid.pendingCalls)
            && (e.kind != ChatCompleted ==> next.response == mid.response)
  {
    hide Round;
  }

  /** No run ends twice: replay adds a stop step only to a run that has none. */
  lemma {:induction false} ReplayedStopsOnce(run: Run, journal: seq<Event>, k: nat, max: nat)
    requires JournalOk(journal, max) && Replayable(run, journal) && run.request.maxToolRounds == max
    requires run.applied <= k <= |journal| && StopsOnce(run.steps)
    ensures StopsOnce(ReplayedTo(run, journal, k).steps)
    decreases k
  {
    hide Replayable, ReplayedTo, Effect, Record, StopsOnce;
    if k > run.applied {
      ReplayedStopsOnce(run, journal, k - 1, max);
      ReplayedStep(run, journal, k - 1, max);
      assert EventOk(journal[k - 1], max);
      EffectStopsOnce(ReplayedTo(run, journal, k - 1), journal[k - 1], max);
    } else {
      ReplayedEnds(run, journal, max);
    }
  }

  predicate StopsOnce(steps: seq<Step>) {
    forall i, j :: 0 <= i < j < |steps| ==> steps[i].kind != StopStep || steps[j].kind != StopStep
  }

  lemma EffectStopsOnce(mid: Run, e: Event, max: nat)
    requires EventOk(e, max) && Effect(mid, e).Success? && StopsOnce(mid.steps)
    ensures StopsOnce(Record(Effect(mid, e).value, e).steps)
  {
    hide Round;
  }

  /** A restored run has begun to end exactly when the snapshot had, or its journal since then
      records a memory or the reason of a stop. */
  lemma {:induction false} ReplayedFinalizes(run: Run, journal: seq<Event>, k: nat, max: nat)
    requires JournalOk(journal, max) && Replayable(run, journal) && run.request.maxToolRounds == max
    requires run.applied <= k <= |journal|
    ensures Finalizing(ReplayedTo(run, journal, k).steps)
            <==> Finalizing(run.steps) || exists i :: run.applied <= i < k && EndsIt(journal[i])
    decreases k
  {
    hide Replayable, ReplayedTo, Effect, Record, EndsIt, Finalizing;
    if k > run.applied {
      ReplayedFinalizes(run, journal, k - 1, max);
      ReplayedStep(run, journal, k - 1, max);
      assert EventOk(journal[k - 1], max);
      EffectFinalizes(ReplayedTo(run, journal, k - 1), journal[k - 1], max);
    } else {
      ReplayedEnds(run, journal, max);
    }
  }

  predicate EndsIt(e: Event) {
    e.kind == MemoryWritten || (e.kind == RunStopped && e.stop.StopBy?)
  }

  lemma EffectFinalizes(mid: Run, e: Event, max: nat)
    requires EventOk(e, max) && Effect(mid, e).Success?
    ensures Finalizing(Record(Effect(mid, e).value, e).steps) <==> Finalizing(mid.steps) || EndsIt(e)
  {
    hide Round;
    var after := Effect(mid, e).value.steps;
    if after != mid.steps {
      var s := after[|mid.steps|];
      assert after == mid.steps + [s];
      assert s in after;
      assert forall x :: x in mid.steps ==> x in after;
    }
  }

  /** Rounds counted anew, for a response that does not say how many are left, stay in the budget. */
  lemma RecountStaysInBudget(run: Run, e: Event)
    ensures 0 <= RemainingAfter(run, e) <= run.request.maxToolRounds
    ensures e.remaining == None && Round(run.steps) <= run.request.maxToolRounds ==>
              Round(run.steps) + 1 + RemainingAfter(run, e) == run.request.maxToolRounds + 1
  {
  }
}
