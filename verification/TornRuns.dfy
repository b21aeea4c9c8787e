/** Runs whose crashes cut the first response after a resume from its snapshot: nothing bounds
    the responses that recovery then restores. */
module TornRuns {
  import opened Wrappers
  import opened Runs
  import opened Recovery
  import opened Machine
  import opened Agreement
  import opened Replaying
  import opened Exclusive
  import opened Protocol
  import opened Untorn

  /** A run paused before any response of its own, with `n` responses behind its snapshot. */
  ghost predicate LeftBehind(w: World, request: Request, n: nat) {
    && w.copies == [] && w.d.ledger == []
    && var snap := w.d.snap;
       && snap.request == request && snap.status == Paused && snap.response == None && Progress(snap.steps) == []
       && snap.pause.Some? && CanResume(snap)
       && snap.applied <= |w.d.journal|
       && Round(Kept(w.d.journal, snap.applied, |w.d.journal|, {})) == n
  }

  ghost predicate GoodRun(ws: seq<World>, request: Request, runId: string, steps: seq<Label>) {
    ws != [] && ExclusiveRun(ws, request, runId, steps) && SaneRun(ws, steps)
  }

  function Last(ws: seq<World>): World
    requires ws != []
  {
    ws[|ws| - 1]
  }

  function Whole(op: Op): Label {
    Label(op, None)
  }

  /** A run goes on with one more step. */
  lemma Extend(ws: seq<World>, request: Request, runId: string, steps: seq<Label>, step: Label)
    returns (more: seq<World>, all: seq<Label>)
    requires GoodRun(ws, request, runId, steps) && Alone(Last(ws), step.op) && Sane(Last(ws), step.op)
    ensures GoodRun(more, request, runId, all) && Last(more) == Next(Last(ws), runId, step)
    ensures more == ws + [Last(more)] && all == steps + [step]
  {
    hide Next, Alone, Sane, StartWorld;
    more, all := ws + [Next(Last(ws), runId, step)], steps + [step];
    forall i | 0 <= i < |all|
      ensures more[i + 1] == Next(more[i], runId, all[i]) && Alone(more[i], all[i].op) && Sane(more[i], all[i].op)
    {
      if i < |steps| { assert all[i] == steps[i] && more[i] == ws[i] && more[i + 1] == ws[i + 1]; }
    }
  }

  lemma SaneOp(w: World, op: Op)
    requires op.Act? ==> !op.action.Respond? && !op.action.ToolReturns?
    ensures Sane(w, op)
  {
  }

  // -------------------------------------------------------------- the steps taken

  lemma StartNext(request: Request, runId: string)
    ensures var w := Next(StartWorld(request), runId, Whole(Act(0, StartRun)));
            && JustStarted(w.d.snap, w.d.journal) && w.d.snap.request == request && w.d.ledger == []
            && |w.copies| == 1 && w.copies[0].run == w.d.snap && w.copies[0].pc == Chatting(request.maxToolRounds)
            && !w.d.snap.pauseRequest && w.d.snap.remaining == request.maxToolRounds
  {
    var w := StartWorld(request);
    var live := w.copies[0];
    var run := NewRun(request).(steps := [BareStep(StartStep).(eventId := Some(0))]);
    assert run.steps == [] + run.steps;
    var e := Stamp(BareEvent(RunStarted), 0, 1);
    var saved := Noted(run, e);
    assert Jumped(w.d, live) == {};
    var next := Live(saved, Chatting(request.maxToolRounds), true, {});
    assert ActSegment(w.d, live, 0, runId, StartRun) == Segment([Append(e), Save(saved, {})], Some(next));
    ApplyTwo(w.d, Append(e), Save(saved, {}));
    assert w.copies[0 := next] == [next];
    assert [] + [e] == [e];
  }

  lemma InterruptNext(w: World, runId: string)
    requires |w.copies| == 1 && w.d.snap.status !in {Canceled, RunStatus.Failed}
    ensures var n := Next(w, runId, Whole(Act(0, Interrupt)));
            && n.copies == [] && n.d.ledger == w.d.ledger && n.d.journal == w.d.journal && n.d.snap == w.copies[0].run
  {
    var live := w.copies[0];
    assert ActSegment(w.d, live, w.nextId, runId, Interrupt) == Segment([Save(live.run, live.jumped)], None);
    assert w.copies[..0] + w.copies[1..] == [];
    ApplyOne(w.d, Save(live.run, live.jumped));
  }

  lemma SuspendNext(w: World, runId: string)
    requires w.copies == [] && w.d.ledger == [] && w.d.snap.status == Running
    ensures var n := Next(w, runId, Whole(Suspend(Timeout, false)));
            && n.copies == [] && n.d.ledger == []
            && n.d.snap.steps == Restore(w.d.snap, w.d.journal).0.steps
  {
    hide Restore;
    assert UnknownPuts(w.d.ledger) == [];
    assert ApplyAll(w.d, []) == w.d;
    var d := w.d;
    InspectRestores(d.snap, d.journal, Some(d.ledger));
    var (run, eligible, checkpoint) := Inspect(d.snap, d.journal, Some(d.ledger));
    if run.status != Running {
      assert [] + [Save(run, {})] == [Save(run, {})];
      ApplyOne(d, Save(run, {}));
    } else {
      var e := Stamp(BareEvent(RunPaused), w.nextId, |d.journal| + 1);
      var paused := Noted(run, e).(status := Paused, stop := None, pause := Some(Pause(Timeout, checkpoint, eligible)));
      var save := Save(paused, Range(run.applied, |d.journal|));
      assert [] + [Append(e), save] == [Append(e), save];
      ApplyTwo(d, Append(e), save);
    }
  }

  /** A run interrupted right after it was started: nothing to replay, nothing to lose. */
  predicate JustStarted(snap: Run, journal: seq<Event>) {
    && |journal| == 1 && journal[0].kind == RunStarted && journal[0].id.Some? && journal[0].sequence == Some(1)
    && snap.trace == journal && snap.applied == 1 && snap.status == Running && snap.response == None
    && |snap.steps| == 1 && snap.steps[0].kind == StartStep
  }

  lemma InspectStarted(snap: Run, journal: seq<Event>)
    requires JustStarted(snap, journal)
    ensures Inspect(snap, journal, Some([])) == (snap, true, StartedRun)
  {
    assert journal[1..] == [] && After([], 1) == [];
    assert !Beyond(journal[0], 1);
    assert After(journal, 1) == [];
    assert SavedEvent(snap.trace, 1) == Some(journal[0]);
    forall e | e in journal ensures !Reuses(snap.trace, e) { }
    assert Restore(snap, journal) == (snap, None);
  }

  lemma PauseStarted(w: World, runId: string)
    requires w.copies == [] && w.d.ledger == [] && JustStarted(w.d.snap, w.d.journal)
    ensures var e := Stamp(BareEvent(RunPaused), w.nextId, 2);
            var paused := Noted(w.d.snap, e).(status := Paused, stop := None, pause := Some(Pause(Timeout, StartedRun, true)));
            Next(w, runId, Whole(Suspend(Timeout, false)))
            == World(Apply(Apply(w.d, Append(e)), Save(paused, Range(1, 1))), [], w.nextId + 2)
  {
    hide Inspect, Noted, Range, Apply;
    var d := w.d;
    InspectStarted(d.snap, d.journal);
    assert UnknownPuts(d.ledger) == [] && ApplyAll(d, []) == d;
    var e := Stamp(BareEvent(RunPaused), w.nextId, 2);
    var paused := Noted(d.snap, e).(status := Paused, stop := None, pause := Some(Pause(Timeout, StartedRun, true)));
    var writes := [Append(e), Save(paused, Range(1, 1))];
    assert [] + writes == writes && SuspendWrites(d, w.nextId, Timeout) == writes;
    ApplyTwo(d, writes[0], writes[1]);
  }

  lemma FirstPause(w: World, request: Request, runId: string)
    requires w.copies == [] && w.d.ledger == [] && w.d.snap.request == request && JustStarted(w.d.snap, w.d.journal)
    ensures LeftBehind(Next(w, runId, Whole(Suspend(Timeout, false))), request, 0)
  {
    hide Next;
    PauseStarted(w, runId);
    var n := Next(w, runId, Whole(Suspend(Timeout, false)));
    assert n.d.snap.steps == w.d.snap.steps && n.d.snap.steps[..0] == [];
    assert Progress(n.d.snap.steps) == [];
  }

  // ------------------------------------------------------- one more torn execution

  lemma LoadNext(w: World, runId: string)
    requires w.copies == []
    ensures Next(w, runId, Whole(Load)) == World(w.d, [Live(w.d.snap, Loaded, false, {})], w.nextId + 2)
  {
    assert ApplyAll(w.d, []) == w.d;
  }

  /** The run a resume puts back to work. */
  function Woken(run: Run): Run {
    run.(status := Running, stop := None, pendingCalls := [], pendingApprovals := [], pause := None, pauseRequest := false)
  }

  lemma BeginNext(w: World, runId: string)
    requires |w.copies| == 1 && w.copies[0].pc == Loaded && !w.copies[0].yielded
    requires var run := w.copies[0].run; run.status == Paused && CanResume(run) && run.pause.Some? && run.response == None
    ensures var run := w.copies[0].run;
            Next(w, runId, Whole(Act(0, Begin)))
            == World(w.d, [Live(Woken(run), Chatting(run.request.maxToolRounds), false, w.copies[0].jumped)], w.nextId + 2)
  {
    assert ApplyAll(w.d, []) == w.d;
  }

  /** The crash lets the append through and loses the save. */
  lemma TornRespond(w: World, request: Request, runId: string, response: Response, n: nat)
    requires LeftBehind(World(w.d, [], w.nextId), request, n) && |w.copies| == 1 && w.copies[0].pc.Chatting?
    ensures LeftBehind(Next(w, runId, Label(Act(0, Respond(response)), Some(1))), request, n + 1)
  {
    hide Next, Kept, Progress;
    RespondCut(w, runId, response);
    OneMoreKept(w.d.journal, w.d.snap.applied, Stamp(ChatEvent(w.copies[0].run, response), w.nextId, |w.d.journal| + 1));
  }

  lemma RespondCut(w: World, runId: string, response: Response)
    requires |w.copies| == 1 && w.copies[0].pc.Chatting? && w.d.snap.status == Paused
    ensures var e := Stamp(ChatEvent(w.copies[0].run, response), w.nextId, |w.d.journal| + 1);
            Next(w, runId, Label(Act(0, Respond(response)), Some(1))) == World(Apply(w.d, Append(e)), [], w.nextId + 2)
  {
    hide Responded, ChatEvent, Noted, Jumped;
    var e := Stamp(ChatEvent(w.copies[0].run, response), w.nextId, |w.d.journal| + 1);
    var writes := ActSegment(w.d, w.copies[0], w.nextId, runId, Respond(response)).writes;
    assert |writes| == 2 && writes[0] == Append(e);
    assert writes[..1] == [Append(e)];
    ApplyOne(w.d, Append(e));
  }

  lemma OneMoreKept(journal: seq<Event>, from: nat, e: Event)
    requires from <= |journal| && e.kind == ChatCompleted && e.response.Some?
    ensures Round(Kept(journal + [e], from, |journal| + 1, {})) == Round(Kept(journal, from, |journal|, {})) + 1
  {
    KeptFrame(journal, journal + [e], from, |journal|, {}, {});
    var before := Kept(journal, from, |journal|, {});
    var after := Kept(journal + [e], from, |journal| + 1, {});
    assert (journal + [e])[|journal|] == e;
    assert after == before + [ProgressOf(e).value];
    assert after[..|after| - 1] == before;
  }

  /** The run is loaded and woken up to ask for its first response. */
  lemma Rerun(ws: seq<World>, request: Request, runId: string, steps: seq<Label>, n: nat)
    returns (more: seq<World>, all: seq<Label>)
    requires GoodRun(ws, request, runId, steps) && LeftBehind(Last(ws), request, n)
    ensures GoodRun(more, request, runId, all)
    ensures Last(more).d == Last(ws).d
    ensures Last(more).copies == [Live(Woken(Last(ws).d.snap), Chatting(request.maxToolRounds), false, {})]
  {
    hide IsRun, SaneRun, Next, StartWorld;
    LoadNext(Last(ws), runId);
    more, all := Extend(ws, request, runId, steps, Whole(Load));
    BeginNext(Last(more), runId);
    more, all := Extend(more, request, runId, all, Whole(Act(0, Begin)));
  }

  /** The run is started, and interrupted before its first response. */
  lemma Opening(request: Request, runId: string) returns (ws: seq<World>, steps: seq<Label>)
    ensures GoodRun(ws, request, runId, steps) && LeftBehind(Last(ws), request, 0)
  {
    hide Next, LeftBehind, StartWorld, Sane;
    ws, steps := [StartWorld(request)], [];
    SaneOp(Last(ws), Act(0, StartRun));
    StartNext(request, runId);
    ws, steps := Extend(ws, request, runId, steps, Whole(Act(0, StartRun)));
    SaneOp(Last(ws), Act(0, Interrupt));
    InterruptNext(Last(ws), runId);
    ws, steps := Extend(ws, request, runId, steps, Whole(Act(0, Interrupt)));
    SaneOp(Last(ws), Suspend(Timeout, false));
    FirstPause(Last(ws), request, runId);
    ws, steps := Extend(ws, request, runId, steps, Whole(Suspend(Timeout, false)));
  }

  /** Every torn execution leaves one more response behind the snapshot. */
  lemma {:induction false} LeaveBehind(request: Request, runId: string, response: Response, n: nat)
    returns (ws: seq<World>, steps: seq<Label>)
    requires GoodReply(response.message)
    ensures GoodRun(ws, request, runId, steps) && LeftBehind(Last(ws), request, n)
    decreases n
  {
    hide Next, LeftBehind, IsRun, SaneRun, GoodReply;
    if n == 0 {
      ws, steps := Opening(request, runId);
    } else {
      ws, steps := LeaveBehind(request, runId, response, n - 1);
      var before := Last(ws);
      ws, steps := Rerun(ws, request, runId, steps, n - 1);
      SameWithoutCopies(before, Last(ws), request, n - 1);
      TornRespond(Last(ws), request, runId, response, n - 1);
      ws, steps := Extend(ws, request, runId, steps, Label(Act(0, Respond(response)), Some(1)));
    }
  }

  lemma SameWithoutCopies(a: World, b: World, request: Request, n: nat)
    requires LeftBehind(a, request, n) && a.d == b.d
    ensures LeftBehind(World(b.d, [], b.nextId), request, n)
  {
  }

  /** In torn runs no round budget holds, whatever the request allows: for every number there
      is a run, one execution at a time and with well-behaved outcomes only, whose stored
      snapshot holds that many responses. */
  lemma TornRunsHaveNoBudget(request: Request, runId: string, response: Response, n: nat)
    returns (ws: seq<World>, steps: seq<Label>)
    requires GoodReply(response.message)
    ensures ExclusiveRun(ws, request, runId, steps) && SaneRun(ws, steps)
    ensures ws != [] && Round(Last(ws).d.snap.steps) == n
  {
    hide Next, IsRun, SaneRun, GoodReply, Restore, StartWorld;
    ws, steps := LeaveBehind(request, runId, response, n);
    ws, steps := Rerun(ws, request, runId, steps, n);
    SaneOp(Last(ws), Act(0, Interrupt));
    InterruptNext(Last(ws), runId);
    ws, steps := Extend(ws, request, runId, steps, Whole(Act(0, Interrupt)));
    RunsInStep(ws, request, runId, steps, |ws| - 1);
    RestoresAll(Last(ws), request, n);
    SaneOp(Last(ws), Suspend(Timeout, false));
    SuspendNext(Last(ws), runId);
    ws, steps := Extend(ws, request, runId, steps, Whole(Suspend(Timeout, false)));
  }

  /** Recovery takes in every response that was left behind. */
  lemma RestoresAll(w: World, request: Request, n: nat)
    requires WorldInStep(w, request) && Progress(w.d.snap.steps) == [] && w.d.snap.applied <= |w.d.journal|
    requires Round(Kept(w.d.journal, w.d.snap.applied, |w.d.journal|, {})) == n
    ensures Round(Restore(w.d.snap, w.d.journal).0.steps) == n
  {
    hide Restore, Progress, Kept, StepIds;
    var snap := w.d.snap;
    assert Saved(w.d, snap);
    RestoreBuilds(snap, w.d.journal, request.maxToolRounds);
    var after := Restore(snap, w.d.journal).0;
    ProgressCounts(after.steps);
    assert Progress(after.steps) == Kept(w.d.journal, snap.applied, |w.d.journal|, {});
  }
}
