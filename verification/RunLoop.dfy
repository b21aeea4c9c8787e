/** The tool loop of an execution (application/agent_execution.py, agent_runs.py:686), working
    on its state object and the registers in place. What the outside decides (responses,
    approvals, tool outcomes) is any value. Every method takes one step of the state machine,
    and the loop as a whole drives it; it ends because rounds and calls run out. */
module RunLoop {
  import opened Wrappers
  import opened Content
  import opened Runs
  import opened Recovery
  import opened Ledger
  import opened Machine
  import opened RunObjects

  function Took(w: World, runId: string, action: Action): World {
    Next(w, runId, Label(Act(0, action), None))
  }

  /** The world after a list of actions of its one copy. */
  function Drive(w: World, runId: string, actions: seq<Action>): World
    decreases |actions|
  {
    if actions == [] then w
    else Took(Drive(w, runId, actions[..|actions| - 1]), runId, actions[|actions| - 1])
  }

  lemma DriveOn(w: World, runId: string, actions: seq<Action>, action: Action)
    ensures Drive(w, runId, actions + [action]) == Took(Drive(w, runId, actions), runId, action)
  {
    hide Took;
    assert (actions + [action])[..|actions|] == actions;
  }

  lemma {:induction false} DriveConcat(w: World, runId: string, a: seq<Action>, b: seq<Action>)
    ensures Drive(w, runId, a + b) == Drive(Drive(w, runId, a), runId, b)
    decreases |b|
  {
    hide Took;
    if b == [] {
      assert a + b == a;
    } else {
      var front, last := b[..|b| - 1], b[|b| - 1];
      DriveConcat(w, runId, a, front);
      DriveOn(w, runId, a + front, last);
      assert a + b == a + front + [last];
    }
  }

  function CopiesOf(next: Option<Live>): seq<Live> {
    match next
    case None => []
    case Some(live) => [live]
  }

  lemma StepIs(w: World, live: Live, runId: string, action: Action, seg: Segment)
    requires w.copies == [live] && seg == ActSegment(w.d, live, w.nextId, runId, action)
    ensures Took(w, runId, action) == World(ApplyAll(w.d, seg.writes), CopiesOf(seg.next), w.nextId + 2)
  {
    hide ActSegment, ApplyAll;
    assert [live][..0] + [live][1..] == [];
  }

  lemma PersistFrom(d: Durable, a: Live, b: Live, run: Run, e: Event, id: nat, pc: Pc)
    requires a.jumped == b.jumped && a.run.applied == b.run.applied
    ensures Persist(d, a, run, e, id, pc) == Persist(d, b, run, e, id, pc)
  {
  }

  function Carried(d: Durable, noted: Run): Run {
    if d.snap.status == Running && d.snap.pauseRequest && noted.status == Running then noted.(pauseRequest := true) else noted
  }

  lemma PersistCases(d: Durable, live: Live, e: Event, id: nat, next: Pc)
    ensures var run, n, jumped, seg := live.run, |d.journal| + 1, Jumped(d, live), Persist(d, live, live.run, e, id, next);
            var append, noted := Append(Stamp(e, id, n)), Noted(run, Stamp(e, id, n));
            && noted.status == run.status
            && (d.snap.status == Canceled ==> seg == Segment([], None) && ApplyAll(d, seg.writes) == d)
            && (d.snap.status != Canceled && PausesAt(d, run, e.kind) ==>
                  var p := Stamp(BareEvent(RunPaused), id + 1, n + 1);
                  var paused := PausedAt(noted, e.kind, p);
                  seg == Segment([append, Append(p), Save(paused, jumped), Save(paused, jumped)],
                                 Some(Live(paused, Ended, false, jumped))))
            && (d.snap.status != Canceled && !PausesAt(d, run, e.kind) ==>
                  seg == Segment([append, Save(Carried(d, noted), jumped)], Some(Live(Carried(d, noted), next, true, jumped))))
  {
    hide Jumped, Stamp, PausedAt, IsCheckpoint;
  }

  /** How the loop goes on after a call: it stops here, it breaks off, or it takes the next call. */
  datatype Flow = Halt | Break | GoOn

  /** What a run is left as when its execution ends by itself: it is paused, or its last event is
      the stop event of its stop reason, and it is done exactly when that is FINISHED. */
  predicate IsOver(run: Run) {
    run.status == Paused
    || (&& run.stop.Some? && EndsWith(run, StopEvent(StopBy(run.stop.value)))
        && run.status == (if run.stop.value == StopReason.Finished then Done else Failed))
  }

  /** The last event of the trace is this one, up to its id and sequence number. */
  predicate EndsWith(run: Run, e: Event) {
    && run.trace != []
    && run.trace[|run.trace| - 1].kind == e.kind && run.trace[|run.trace| - 1].stop == e.stop
  }

  /** Why a run stops at the end of the loop. */
  function ReasonOf(calls: seq<ToolCall>, broken: bool): StopReason {
    if broken then StopReason.ToolError else if calls != [] then RoundsExhausted else StopReason.Finished
  }

  class Execution {
    const registers: Registers
    const state: RunState
    const runId: string
    var nextId: nat
    ghost var pc: Pc
    ghost var yielded: bool
    ghost var jumped: set<nat>
    ghost var gone: bool

    ghost function Copy(): Live
      reads this, state
    {
      Live(state.Value(), pc, yielded, jumped)
    }

    ghost function Value(): World
      reads this, state, registers
    {
      World(registers.Value(), if gone then [] else [Copy()], nextId)
    }

    /** The execution has come to its end: the run is over, or the copy is gone, and then a run that
        was running is stored as canceled or failed. */
    ghost predicate Over(running: bool)
      reads this, state, registers
    {
      if gone then running ==> registers.snap.status == Canceled || registers.snap.status == Failed
      else pc == Ended && IsOver(state.Value())
    }

    /** An execution about to run the loop on a loaded state. */
    constructor (registers: Registers, state: RunState, runId: string, nextId: nat, ghost pc: Pc, ghost jumped: set<nat>)
      ensures this.registers == registers && this.state == state && this.runId == runId && !gone
      ensures Value() == World(registers.Value(), [Live(state.Value(), pc, false, jumped)], nextId)
    {
      this.registers, this.state, this.runId, this.nextId := registers, state, runId, nextId;
      this.pc, this.yielded, this.jumped, this.gone := pc, false, jumped, false;
    }

    // --------------------------------------------------------------- persisting

    /** _pause_at_checkpoint_if_requested, for an event that has just been appended. */
    method PauseIfRequested(kind: EventKind, id: nat) returns (paused: bool)
      modifies registers, state
      ensures var d, run := old(registers.Value()), old(state.Value());
              var p := Stamp(BareEvent(RunPaused), id, |d.journal| + 1);
              if d.snap.status == Running && d.snap.pauseRequest && run.status == Running then
                if IsCheckpoint(kind) then
                  && paused && state.Value() == PausedAt(run, kind, p)
                  && registers.Value() == Apply(Apply(d, Append(p)), Save(PausedAt(run, kind, p), jumped))
                else !paused && state.Value() == run.(pauseRequest := true) && registers.Value() == d
              else !paused && state.Value() == run && registers.Value() == d
      ensures paused ==> state.status == Paused && IsCheckpoint(kind)
      ensures !paused ==> state.status == old(state.status) && state.stop == old(state.stop) && state.trace == old(state.trace)
    {
      hide Stamp, Range, Apply, PausedAt, IsCheckpoint, Noted;
      if registers.snap.status != Running || !registers.snap.pauseRequest { return false; }
      if state.status != Running { return false; }
      if !IsCheckpoint(kind) {
        state.pauseRequest := true;
        return false;
      }
      PauseAt(kind, id);
      return true;
    }

    method PauseAt(kind: EventKind, id: nat)
      modifies registers, state
      ensures var d, run := old(registers.Value()), old(state.Value());
              var p := Stamp(BareEvent(RunPaused), id, |d.journal| + 1);
              && state.Value() == PausedAt(run, kind, p)
              && registers.Value() == Apply(Apply(d, Append(p)), Save(PausedAt(run, kind, p), jumped))
      ensures state.status == Paused
    {
      hide Stamp, Range, Apply;
      state.status, state.stop, state.pauseRequest := Paused, None, false;
      state.pause := Some(Pause(Manual, AtEvent(kind), true));
      var p := registers.AppendEvent(BareEvent(RunPaused), id);
      state.Note(p);
      registers.SaveState(state.Value(), jumped);
    }

    /** One turn of _stream_and_store, for an event whose step is already in the state. */
    method Store(e: Event, ghost next: Pc) returns (goes: bool)
      requires !gone
      modifies this, registers, state
      ensures var d, live := old(registers.Value()), old(Copy());
              var seg := Persist(d, live, live.run, e, old(nextId), next);
              && Value() == World(ApplyAll(d, seg.writes), CopiesOf(seg.next), old(nextId) + 2)
              && (goes ==> !gone && pc == next && state.status == live.run.status && state.stop == live.run.stop
                           && EndsWith(state.Value(), e))
      ensures !goes ==> if gone then registers.snap.status == Canceled
                        else pc == Ended && state.status == Paused && IsCheckpoint(e.kind)
    {
      hide Jumped, Range, PausedAt, IsCheckpoint, Stamp, Noted, Persist, ApplyAll, Apply, EndsWith, IsOver;
      ghost var d, live := registers.Value(), Copy();
      var id := nextId;
      nextId := nextId + 2;
      PersistCases(d, live, e, id, next);
      if registers.snap.status == Canceled {
        gone := true;
        return false;
      }
      jumped := Jumped(d, live);
      var stamped := registers.AppendEvent(e, id);
      AppendOnly(d, stamped);
      state.Note(stamped);
      NotedEndsWith(live.run, stamped);
      StampKeeps(e, id, |d.journal| + 1);
      var paused := PauseIfRequested(e.kind, id + 1);
      var saved := state.Value();
      registers.SaveState(saved, jumped);
      pc := if paused then Ended else next;
      yielded := !paused;
      if paused {
        PausedWrites(d, stamped, Stamp(BareEvent(RunPaused), id + 1, |d.journal| + 2), saved, jumped);
      } else {
        ApplyTwo(d, Append(stamped), Save(saved, jumped));
        EndsStill(Noted(live.run, stamped), saved, stamped, e);
      }
      return !paused;
    }

    /** The counters the loop assigns before it looks at a call. */
    method Enter(left: int)
      modifies state`remaining, state`stop
      ensures state.Value() == Machine.Enter(old(state.Value()), left)
    {
      state.remaining, state.stop := left, Some(StopReason.Finished);
    }

    // --------------------------------------------------------- starting and resuming

    /** The start step of a new run and its event. */
    method StartRun() returns (goes: bool)
      requires !gone && pc == Fresh
      modifies this, registers, state
      ensures Value() == Took(old(Value()), runId, Action.StartRun)
      ensures goes ==> !gone && pc == Chatting(state.request.maxToolRounds) && state.status == old(state.status)
      ensures !goes ==> Over(old(state.status) == Running)
    {
      hide Persist, ApplyAll, ActSegment, Took;
      ghost var w, live := Value(), Copy();
      StartIs(w.d, live, w.nextId, runId);
      StepIs(w, live, runId, Action.StartRun, ActSegment(w.d, live, w.nextId, runId, Action.StartRun));
      state.steps := state.steps + [BareStep(StartStep).(eventId := Some(nextId))];
      PersistFrom(w.d, live, Copy(), state.Value(), BareEvent(RunStarted), w.nextId, Chatting(state.request.maxToolRounds));
      goes := Store(BareEvent(RunStarted), Chatting(state.request.maxToolRounds));
    }

    /** _resume_agent_events and _resume_checkpoint_events: wakes a paused run where it stopped;
        a run that cannot be resumed goes through the failure path. */
    method Begin() returns (at: Option<Continue>)
      requires !gone && pc == Loaded
      modifies this, registers, state
      ensures Value() == Took(old(Value()), runId, Action.Begin)
      ensures if at.Some? then !gone && pc == PcOf(at.value) && state.status == Running
              else gone && Over(old(state.status) == Running)
    {
      hide FailWrites, ApplyAll, ActSegment, Took, Resume;
      ghost var w, live := Value(), Copy();
      BeginIs(w.d, live, w.nextId, runId);
      StepIs(w, live, runId, Action.Begin, ActSegment(w.d, live, w.nextId, runId, Action.Begin));
      NothingApplied(w.d);
      at := state.Wake();
      if at == None {
        Fail();
      } else {
        pc, yielded, nextId := PcOf(at.value), false, nextId + 2;
      }
    }

    /** The finally block of _stream_and_store, when the stream ends or is interrupted. */
    method Finally(ended: bool)
      requires !gone && (ended ==> pc == Ended)
      modifies this, registers
      ensures Value() == Took(old(Value()), runId, if ended then Action.Return else Action.Interrupt)
    {
      hide ApplyAll, ActSegment, Took;
      ghost var w, live := Value(), Copy();
      ghost var action := if ended then Action.Return else Action.Interrupt;
      FinallyIs(w.d, live, w.nextId, runId);
      StepIs(w, live, runId, action, ActSegment(w.d, live, w.nextId, runId, action));
      NothingApplied(w.d);
      gone, nextId := true, nextId + 2;
      if registers.snap.status != Canceled && registers.snap.status != Failed {
        registers.SaveState(state.Value(), jumped);
        ApplyOne(w.d, Save(live.run, live.jumped));
      }
    }

    // ------------------------------------------------------------------ responses

    method Delta(text: string) returns (goes: bool)
      requires !gone && pc.Chatting?
      modifies this, registers, state
      ensures Value() == Took(old(Value()), runId, Action.Delta(text))
      ensures goes ==> !gone && pc == old(pc) && state.status == old(state.status)
      ensures !goes ==> Over(old(state.status) == Running)
    {
      hide Jumped, Range, Stamp, Noted, ActSegment, Took;
      ghost var w, live := Value(), Copy();
      DeltaIs(w.d, live, w.nextId, runId, text);
      StepIs(w, live, runId, Action.Delta(text), ActSegment(w.d, live, w.nextId, runId, Action.Delta(text)));
      var id := nextId;
      nextId := nextId + 2;
      if registers.snap.status == Canceled {
        gone := true;
        return false;
      }
      jumped, yielded := Jumped(w.d, live), false;
      var e := registers.AppendEvent(BareEvent(ChatDelta), id);
      state.Note(e);
      NotedEndsWith(live.run, e);
      ApplyOne(w.d, Append(e));
      return true;
    }

    method Respond(response: Response, left: int) returns (goes: bool)
      requires !gone && pc == Chatting(left)
      modifies this, registers, state
      ensures Value() == Took(old(Value()), runId, Action.Respond(response))
      ensures goes ==> !gone && pc == Calling(response.message.calls, left) && state.status == old(state.status)
      ensures !goes ==> Over(old(state.status) == Running)
    {
      hide Persist, ApplyAll, ActSegment, Took;
      ghost var w, live := Value(), Copy();
      RespondIs(w.d, live, w.nextId, runId, response);
      StepIs(w, live, runId, Action.Respond(response), ActSegment(w.d, live, w.nextId, runId, Action.Respond(response)));
      state.response := Some(response);
      state.steps := state.steps + [BareStep(ChatStep).(response := Some(response), message := Some(response.message),
                                                        eventId := Some(nextId))];
      assert state.Value() == Responded(live.run, response, w.nextId);
      var e := BareEvent(ChatCompleted).(response := Some(response), message := Some(response.message),
                                         remaining := Some(state.remaining));
      assert e == ChatEvent(live.run, response);
      PersistFrom(w.d, live, Copy(), state.Value(), e, w.nextId, Calling(response.message.calls, left));
      goes := Store(e, Calling(response.message.calls, left));
    }

    // ------------------------------------------------------------- taking up a call

    method AskApproval(call: ToolCall, approval: Option<string>, left: int) returns (goes: bool)
      requires !gone && CanCall(pc, call) && pc.left == left
      modifies this, registers, state
      ensures Value() == Took(old(Value()), runId, Action.AskApproval(call, approval))
      ensures goes ==> !gone && pc == old(pc) && state.status == old(state.status)
      ensures !goes ==> Over(old(state.status) == Running)
    {
      hide Persist, ApplyAll, ActSegment, Took, CanCall;
      ghost var w, live := Value(), Copy();
      var e := BareEvent(ApprovalRequested).(call := Some(call), approval := approval);
      ghost var action := Action.AskApproval(call, approval);
      CallIs(w.d, live, w.nextId, runId, call, approval, "");
      StepIs(w, live, runId, action, ActSegment(w.d, live, w.nextId, runId, action));
      Enter(left);
      PersistFrom(w.d, live, Copy(), state.Value(), e, w.nextId, live.pc);
      goes := Store(e, pc);
    }

    method DecideApproval(call: ToolCall, left: int) returns (goes: bool)
      requires !gone && CanCall(pc, call) && pc.left == left
      modifies this, registers, state
      ensures Value() == Took(old(Value()), runId, Action.DecideApproval(call))
      ensures goes ==> !gone && pc == old(pc) && state.status == old(state.status)
      ensures !goes ==> Over(old(state.status) == Running)
    {
      hide Persist, ApplyAll, ActSegment, Took, CanCall;
      ghost var w, live := Value(), Copy();
      var e := BareEvent(ApprovalDecided).(call := Some(call));
      ghost var action := Action.DecideApproval(call);
      CallIs(w.d, live, w.nextId, runId, call, None, "");
      StepIs(w, live, runId, action, ActSegment(w.d, live, w.nextId, runId, action));
      Enter(left);
      PersistFrom(w.d, live, Copy(), state.Value(), e, w.nextId, live.pc);
      goes := Store(e, pc);
    }

    /** _run_paused_event: the run waits for an approval of this call. */
    method PauseForApproval(call: ToolCall, rest: seq<ToolCall>, left: int, requested: string)
      requires !gone && CanCall(pc, call) && pc.left == left && rest == pc.calls[1..]
      modifies this, registers, state
      ensures Value() == Took(old(Value()), runId, Action.PauseForApproval(call, requested))
      ensures Over(true)
    {
      hide Persist, ApplyAll, ActSegment, Took, CanCall;
      ghost var w, live := Value(), Copy();
      var e := BareEvent(RunPaused).(call := Some(call), approval := Some(requested));
      ghost var action := Action.PauseForApproval(call, requested);
      CallIs(w.d, live, w.nextId, runId, call, None, requested);
      StepIs(w, live, runId, action, ActSegment(w.d, live, w.nextId, runId, action));
      state.status, state.stop, state.remaining := Paused, None, left;
      state.pendingCalls, state.pendingApprovals := [call] + rest, [requested];
      PersistFrom(w.d, live, Copy(), state.Value(), e, w.nextId, Ended);
      var _ := Store(e, Ended);
    }

    method StartTool(call: ToolCall, rest: seq<ToolCall>, left: int) returns (goes: bool)
      requires !gone && CanCall(pc, call) && pc.left == left && rest == pc.calls[1..]
      modifies this, registers, state
      ensures Value() == Took(old(Value()), runId, Action.StartTool(call))
      ensures goes ==> !gone && pc == Executing(call, rest, left) && state.status == old(state.status)
      ensures !goes ==> Over(old(state.status) == Running)
    {
      hide Persist, ApplyAll, ActSegment, Took, CanCall, Touch;
      ghost var w, live := Value(), Copy();
      var e := BareEvent(ToolStarted).(call := Some(call));
      ghost var action := Action.StartTool(call);
      CallIs(w.d, live, w.nextId, runId, call, None, "");
      StepIs(w, live, runId, action, ActSegment(w.d, live, w.nextId, runId, action));
      Enter(left);
      state.TouchLastStep(ToolStep, nextId);
      PersistFrom(w.d, live, Copy(), state.Value(), e, w.nextId, Executing(call, rest, left));
      goes := Store(e, Executing(call, rest, left));
    }

    method SkipStart(call: ToolCall, rest: seq<ToolCall>, left: int)
      requires !gone && CanCall(pc, call) && pc.left == left && rest == pc.calls[1..]
      modifies this, state
      ensures Value() == Took(old(Value()), runId, Action.SkipStart(call))
      ensures !gone && pc == Executing(call, rest, left) && state.status == old(state.status)
    {
      hide Persist, ActSegment, Took, CanCall;
      ghost var w, live := Value(), Copy();
      ghost var action := Action.SkipStart(call);
      CallIs(w.d, live, w.nextId, runId, call, None, "");
      StepIs(w, live, runId, action, ActSegment(w.d, live, w.nextId, runId, action));
      Enter(left);
      pc, yielded := Executing(call, rest, left), false;
      nextId := nextId + 2;
    }

    // ------------------------------------------------------------ results and errors

    /** Where the loop stands after a call, in step with what it was told to do. */
    ghost predicate Reached(flow: Flow, rest: seq<ToolCall>, left: int, was: RunStatus)
      reads this, state, registers
    {
      && (flow == Halt ==> Over(was == Running))
      && (flow != Halt ==> !gone && state.status == was)
      && (flow == Break ==> pc == Broken(left))
      && (flow == GoOn ==> pc == if rest == [] then RoundDone(left) else Calling(rest, left))
    }

    /** Appends the step of a result or an error and persists its event. */
    method Record(e: Event, ghost live: Live, ghost d: Durable, rest: seq<ToolCall>, left: int) returns (flow: Flow)
      requires !gone && ProgressOf(e).Some?
      requires live.run == state.Value() && live.jumped == jumped && d == registers.Value()
      modifies this, registers, state
      ensures var seg := RecordTool(d, live, e, old(nextId), rest, left);
              Value() == World(ApplyAll(d, seg.writes), CopiesOf(seg.next), old(nextId) + 2)
      ensures Reached(flow, rest, left, old(state.status))
    {
      hide Persist, ApplyAll;
      state.steps := state.steps + [ProgressOf(e).value.(eventId := Some(nextId))];
      ghost var next := GoesTo(e, live.run.request.recoverToolErrors, rest, left);
      PersistFrom(d, live, Copy(), state.Value(), e, nextId, next);
      RecordIs(d, live, e, nextId, rest, left);
      var goes := Store(e, next);
      flow := if !goes then Halt else if e.kind == ToolFailed && !state.request.recoverToolErrors then Break else GoOn;
    }

    method RejectTool(call: ToolCall, rest: seq<ToolCall>, left: int, error: string) returns (flow: Flow)
      requires !gone && CanCall(pc, call) && pc.left == left && rest == pc.calls[1..]
      modifies this, registers, state
      ensures Value() == Took(old(Value()), runId, Action.RejectTool(call, error))
      ensures Reached(flow, rest, left, old(state.status))
    {
      hide RecordTool, ApplyAll, ActSegment, Took, CanCall;
      ghost var w, live := Value(), Copy();
      ghost var action := Action.RejectTool(call, error);
      CallIs(w.d, live, w.nextId, runId, call, None, error);
      StepIs(w, live, runId, action, ActSegment(w.d, live, w.nextId, runId, action));
      Enter(left);
      flow := Record(ErrorEvent(call, error), live.(run := Machine.Enter(live.run, left)), w.d, rest, left);
    }

    // ------------------------------------------------------------- running a tool

    /** What the ledger says about a call of the current round (_execute_tool_call). */
    method ConsultLedger(id: string, tool: Option<ReplayPolicy>) returns (plan: Plan)
      ensures plan == PlanCall(registers.ledger, runId, Round(state.steps), id, tool)
    {
      var round := state.CurrentToolRound();
      var attempts := registers.ledger;
      if exists a: Attempt :: a in attempts && a.round == None && a.id == id { return Refuse(LegacyAttempt); }
      var latest := LatestAttempts(attempts, round);
      var known := if id in latest then Some(latest[id]) else None;
      if known.Some? && known.value.status == Completed {
        return if known.value.result == None then Refuse(MissingResult) else Serve(known.value.result.value);
      }
      if known.Some? && known.value.status == AttemptFailed {
        return ServeError(if known.value.error.Some? then known.value.error.value else "Persisted tool execution failed");
      }
      if known.Some? && known.value.status in {Started, Unknown} && !CanRerun(known) { return Refuse(UnknownOutcome); }
      if tool == None { return ToolMissing; }
      if known.Some? && known.value.status == Scheduled { return DispatchScheduled(known.value); }
      var number := NextAttemptNumber(attempts, id);
      return DispatchNew(Attempt(id, number, Some(round), Scheduled, tool.value,
                                 if known.Some? then known.value.key else Key(runId, round, id), None, None, None));
    }

    /** STARTED is saved before the tool is called. */
    method Launch(a: Attempt, create: bool)
      modifies registers
      ensures var d := old(registers.Value());
              var ws := [Put(a.(status := Started)), Send(SentOf(a))];
              registers.Value() == ApplyAll(d, if create then [Create(a)] + ws else ws)
    {
      hide ApplyAll;
      ghost var d := registers.Value();
      if create { registers.CreateAttempt(a); }
      ghost var d1 := registers.Value();
      registers.SaveAttempt(a.(status := Started));
      registers.Dispatch(a.(status := Started));
      ApplyTwo(d1, Put(a.(status := Started)), Send(SentOf(a)));
      if create {
        ApplyThree(d, Create(a), Put(a.(status := Started)), Send(SentOf(a)));
        assert [Create(a)] + [Put(a.(status := Started)), Send(SentOf(a))] == [Create(a), Put(a.(status := Started)), Send(SentOf(a))];
      }
    }

    /** _mark_failed on the state just saved. */
    method NoteFailure(id: nat, ghost passed: set<nat>)
      modifies registers
      ensures var d := old(registers.Value());
              var e := Stamp(StopEvent(FailedText), id, |d.journal| + 1);
              registers.Value() == Apply(Apply(d, Append(e)), Save(FailedBy(d.snap, e), passed))
    {
      ghost var d := registers.Value();
      var failed := new RunState(registers.snap);
      var e := registers.AppendEvent(StopEvent(FailedText), id);
      failed.Note(e);
      failed.status, failed.stop := Failed, None;
      failed.pendingCalls, failed.pendingApprovals := [], [];
      assert failed.Value() == FailedBy(d.snap, e);
      registers.SaveState(failed.Value(), passed);
    }

    /** The failure path: the copy is saved, and a running run is marked failed. */
    method Fail()
      requires !gone
      modifies this, registers
      ensures var d, live := old(registers.Value()), old(Copy());
              Value() == World(ApplyAll(d, FailWrites(d, live, old(nextId))), [], old(nextId) + 2)
      ensures gone && Over(old(state.status) == Running)
    {
      hide Jumped, ApplyAll, FailedBy, Stamp;
      ghost var d, live := registers.Value(), Copy();
      var id := nextId;
      gone, nextId := true, nextId + 2;
      NothingApplied(d);
      if registers.snap.status == Canceled { return; }
      registers.SaveState(state.Value(), jumped);
      ghost var saved := Save(live.run, live.jumped);
      if state.status == Running {
        NoteFailure(id, Jumped(d, live));
        FailedIs(live.run, Stamp(StopEvent(FailedText), id, |d.journal| + 1));
        ghost var e := Stamp(StopEvent(FailedText), id, |d.journal| + 1);
        ApplyThree(d, saved, Append(e), Save(FailedBy(live.run, e), Jumped(d, live)));
      } else if state.status == Canceled || state.status == Failed {
        ApplyOne(d, saved);
      } else {
        registers.SaveState(state.Value(), jumped);
        ApplyTwo(d, saved, saved);
      }
    }

    /** Serves the outcome the ledger holds, or hands the call to its tool; then `running` is
        the attempt it runs under. */
    method Execute(call: ToolCall, rest: seq<ToolCall>, left: int, tool: Option<ReplayPolicy>)
      returns (flow: Flow, running: Option<Option<Attempt>>)
      requires !gone && pc == Executing(call, rest, left)
      modifies this, registers, state
      ensures Value() == Took(old(Value()), runId, Action.Execute(tool))
      ensures running.Some? ==> flow == GoOn && !gone && pc == InTool(call, rest, left, running.value)
                                && state.status == old(state.status)
      ensures running == None ==> Reached(flow, rest, left, old(state.status))
    {
      hide RecordTool, FailWrites, ApplyAll, ActSegment, Took, PlanCall, Round;
      ghost var w, live := Value(), Copy();
      ghost var action := Action.Execute(tool);
      ExecuteIs(w.d, live, w.nextId, runId, tool);
      StepIs(w, live, runId, action, ActSegment(w.d, live, w.nextId, runId, action));
      running := None;
      if call.name == None {
        pc, yielded, nextId := InTool(call, rest, left, None), false, nextId + 2;
        NothingApplied(w.d);
        return GoOn, Some(None);
      }
      var plan := ConsultLedger(call.id, tool);
      match plan
      case Serve(result) => flow := Record(ResultEvent(call, result), live, w.d, rest, left);
      case ServeError(error) => flow := Record(ErrorEvent(call, error), live, w.d, rest, left);
      case ToolMissing => flow := Record(ErrorEvent(call, "tool not found"), live, w.d, rest, left);
      case Refuse(_) =>
        Fail();
        flow := Halt;
      case DispatchNew(a) =>
        Launch(a, true);
        flow, running := GoOn, Some(Some(a.(status := Started)));
        pc, yielded, nextId := InTool(call, rest, left, running.value), false, nextId + 2;
      case DispatchScheduled(a) =>
        Launch(a, false);
        flow, running := GoOn, Some(Some(a.(status := Started)));
        pc, yielded, nextId := InTool(call, rest, left, running.value), false, nextId + 2;
    }

    /** The tool returned or raised: its attempt is closed, then the outcome recorded. */
    method Conclude(attempt: Option<Attempt>, outcome: Outcome, call: ToolCall, rest: seq<ToolCall>, left: int)
      returns (flow: Flow)
      requires !gone && pc == InTool(call, rest, left, attempt)
      modifies this, registers, state
      ensures Value() == Took(old(Value()), runId, OutcomeAction(outcome))
      ensures Reached(flow, rest, left, old(state.status))
    {
      hide RecordTool, ApplyAll, ActSegment, Took;
      ghost var w, live := Value(), Copy();
      ghost var action := OutcomeAction(outcome);
      var e := match outcome case Returned(r) => ResultEvent(call, r) case Raised(x) => ErrorEvent(call, x);
      ConcludeIs(w.d, live, w.nextId, runId, outcome);
      StepIs(w, live, runId, action, ActSegment(w.d, live, w.nextId, runId, action));
      if attempt.Some? { registers.SaveAttempt(Concluded(attempt.value, outcome)); }
      ghost var d := registers.Value();
      CloseIs(w.d, d, live, attempt, outcome, e, w.nextId, rest, left);
      flow := Record(e, live, d, rest, left);
    }

    method EndRound(left: int)
      requires !gone && pc == RoundDone(left)
      modifies this, state
      ensures Value() == Took(old(Value()), runId, Action.EndRound)
      ensures !gone && pc == Chatting(left - 1) && state.status == old(state.status)
    {
      hide ApplyAll, ActSegment, Took;
      ghost var w, live := Value(), Copy();
      EndRoundIs(w.d, live, w.nextId, runId);
      StepIs(w, live, runId, Action.EndRound, ActSegment(w.d, live, w.nextId, runId, Action.EndRound));
      NothingApplied(w.d);
      state.remaining := left - 1;
      pc, yielded, nextId := Chatting(left - 1), false, nextId + 2;
    }

    // ------------------------------------------------------------------- stopping

    method Finish(calls: seq<ToolCall>, left: int, broken: bool)
      requires !gone && (if broken then pc == Broken(left) else pc == Calling(calls, left) && (calls == [] || left <= 0))
      modifies this, state
      ensures Value() == Took(old(Value()), runId, Action.Finish)
      ensures !gone && pc == Stopping && state.status == old(state.status) && state.stop == Some(ReasonOf(calls, broken))
    {
      hide ApplyAll, ActSegment, Took, FinishRun;
      ghost var w, live := Value(), Copy();
      FinishIs(w.d, live, w.nextId, runId);
      StepIs(w, live, runId, Action.Finish, ActSegment(w.d, live, w.nextId, runId, Action.Finish));
      NothingApplied(w.d);
      FinishState(calls, left, broken);
      pc, yielded, nextId := Stopping, false, nextId + 2;
    }

    method FinishState(calls: seq<ToolCall>, left: int, broken: bool)
      modifies state
      ensures state.Value() == FinishRun(old(state.Value()), if broken then Broken(left) else Calling(calls, left))
      ensures state.status == old(state.status) && state.stop == Some(ReasonOf(calls, broken))
    {
      Enter(left);
      state.stop := Some(if broken then StopReason.ToolError else if calls != [] then RoundsExhausted else StopReason.Finished);
      if !broken { state.pendingCalls, state.pendingApprovals := [], []; }
      state.steps := state.steps + [BareStep(StopStep)];
    }

    method WriteMemory() returns (goes: bool)
      requires !gone && pc == Stopping && state.stop.Some?
      modifies this, registers, state
      ensures Value() == Took(old(Value()), runId, Action.WriteMemory)
      ensures goes ==> !gone && pc == Stopping && state.stop == old(state.stop) && state.status == old(state.status)
      ensures !goes ==> gone && registers.snap.status == Canceled
    {
      hide Persist, ApplyAll, ActSegment, Took;
      ghost var w, live := Value(), Copy();
      StopIs(w.d, live, w.nextId, runId);
      StepIs(w, live, runId, Action.WriteMemory, ActSegment(w.d, live, w.nextId, runId, Action.WriteMemory));
      state.steps := state.steps + [BareStep(MemoryStep).(eventId := Some(nextId))];
      PersistFrom(w.d, live, Copy(), state.Value(), BareEvent(MemoryWritten), w.nextId, Stopping);
      MemoryKeepsStop(w.d, Copy(), w.nextId);
      goes := Store(BareEvent(MemoryWritten), Stopping);
    }

    method StopRun()
      requires !gone && pc == Stopping && state.stop.Some?
      modifies this, registers, state
      ensures Value() == Took(old(Value()), runId, Action.StopRun)
      ensures Closed(old(state.stop.value))
    {
      hide Persist, ApplyAll, ActSegment, Took, Touch;
      ghost var w, live := Value(), Copy();
      StopIs(w.d, live, w.nextId, runId);
      StepIs(w, live, runId, Action.StopRun, ActSegment(w.d, live, w.nextId, runId, Action.StopRun));
      var e := StopEvent(StopBy(state.stop.value));
      state.status := if state.stop.value == StopReason.Finished then Done else Failed;
      state.TouchLastStep(StopStep, nextId);
      PersistFrom(w.d, live, Copy(), state.Value(), e, w.nextId, Ended);
      var _ := Store(e, Ended);
    }

    /** The run has recorded that it stopped for this reason, unless it was canceled before. */
    ghost predicate Closed(reason: StopReason)
      reads this, state, registers
    {
      if gone then registers.snap.status == Canceled
      else && pc == Ended && state.stop == Some(reason) && EndsWith(state.Value(), StopEvent(StopBy(reason)))
           && state.status == (if reason == StopReason.Finished then Done else Failed)
    }

    // --------------------------------------------------------------- the tool loop

    /** _trace_tool_approval: what is asked and decided about a call, event by event. */
    method TraceToolApproval(call: ToolCall, left: int) returns (goes: bool, ghost actions: seq<Action>)
      requires !gone && CanCall(pc, call) && pc.left == left
      modifies this, registers, state
      ensures Value() == Drive(old(Value()), runId, actions)
      ensures if goes then !gone && pc == old(pc) && state.status == old(state.status) else Over(old(state.status) == Running)
    {
      hide Took, IsOver, EndsWith, CanCall;
      ghost var w := Value();
      actions := [];
      DriveNone(w, runId);
      var ask: bool, decide: bool := *, *;
      if ask {
        var approval: Option<string> := *;
        DriveOn(w, runId, actions, Action.AskApproval(call, approval));
        goes := AskApproval(call, approval, left);
        actions := actions + [Action.AskApproval(call, approval)];
        if !goes { return; }
      }
      if decide {
        DriveOn(w, runId, actions, Action.DecideApproval(call));
        goes := DecideApproval(call, left);
        actions := actions + [Action.DecideApproval(call)];
        if !goes { return; }
      }
      return true, actions;
    }

    /** One call of a round: approvals, start or rejection, execution and its outcome. */
    method RunCall(raw: ToolCall, rest: seq<ToolCall>, left: int) returns (flow: Flow, ghost actions: seq<Action>)
      requires !gone && pc == Calling([raw] + rest, left) && left > 0
      modifies this, registers, state
      ensures Value() == Drive(old(Value()), runId, actions)
      ensures Reached(flow, rest, left, old(state.status))
    {
      hide Took, IsOver, EndsWith;
      ghost var w := Value();
      DriveNone(w, runId);
      var arguments: string := *;
      var call := raw.(arguments := arguments);
      assert ([raw] + rest)[1..] == rest;
      var goes;
      goes, actions := TraceToolApproval(call, left);
      if !goes { return Halt, actions; }
      var wait: bool, allowed: bool := *, *;
      if wait {
        var requested: string := *;
        DriveOn(w, runId, actions, Action.PauseForApproval(call, requested));
        PauseForApproval(call, rest, left, requested);
        actions := actions + [Action.PauseForApproval(call, requested)];
        return Halt, actions;
      }
      if allowed {
        DriveOn(w, runId, actions, Action.StartTool(call));
        goes := StartTool(call, rest, left);
        actions := actions + [Action.StartTool(call)];
        if !goes { return Halt, actions; }
      } else {
        var policyError: bool := *;
        if !policyError {
          var error: string := *;
          DriveOn(w, runId, actions, Action.RejectTool(call, error));
          flow := RejectTool(call, rest, left, error);
          actions := actions + [Action.RejectTool(call, error)];
          return;
        }
        DriveOn(w, runId, actions, Action.SkipStart(call));
        SkipStart(call, rest, left);
        actions := actions + [Action.SkipStart(call)];
      }
      ghost var more;
      flow, more := RunTool(call, rest, left);
      DriveConcat(w, runId, actions, more);
      actions := actions + more;
    }

    method RunTool(call: ToolCall, rest: seq<ToolCall>, left: int) returns (flow: Flow, ghost actions: seq<Action>)
      requires !gone && pc == Executing(call, rest, left)
      modifies this, registers, state
      ensures Value() == Drive(old(Value()), runId, actions)
      ensures Reached(flow, rest, left, old(state.status))
    {
      hide Took, IsOver, EndsWith;
      ghost var w := Value();
      var tool: Option<ReplayPolicy> := *;
      DriveNone(w, runId);
      DriveOn(w, runId, [], Action.Execute(tool));
      var running;
      flow, running := Execute(call, rest, left, tool);
      actions := [] + [Action.Execute(tool)];
      if running.Some? {
        var outcome: Outcome := *;
        ghost var action := OutcomeAction(outcome);
        DriveOn(w, runId, actions, action);
        flow := Conclude(running.value, outcome, call, rest, left);
        actions := actions + [action];
      }
    }

    /** The end of a run: memory writes, then the stop event. */
    method CloseRun() returns (ghost actions: seq<Action>)
      requires !gone && pc == Stopping && state.stop.Some?
      modifies this, registers, state
      ensures Value() == Drive(old(Value()), runId, actions)
      ensures Closed(old(state.stop.value))
    {
      hide Took;
      ghost var w := Value();
      actions := [];
      DriveNone(w, runId);
      var memories: nat := *;
      while memories > 0
        invariant !gone && pc == Stopping && state.stop == old(state.stop)
        invariant Value() == Drive(w, runId, actions)
      {
        DriveOn(w, runId, actions, Action.WriteMemory);
        var goes := WriteMemory();
        actions := actions + [Action.WriteMemory];
        if !goes { return; }
        memories := memories - 1;
      }
      DriveOn(w, runId, actions, Action.StopRun);
      StopRun();
      actions := actions + [Action.StopRun];
    }

    /** _continue_tool_loop: rounds of calls until no calls or no rounds are left. */
    method ContinueToolLoop(calls: seq<ToolCall>, left: int) returns (ghost actions: seq<Action>)
      requires !gone && pc == Calling(calls, left)
      modifies this, registers, state
      ensures Value() == Drive(old(Value()), runId, actions)
      ensures Over(old(state.status) == Running)
      ensures calls == [] ==> Closed(StopReason.Finished)
      ensures calls != [] && left <= 0 ==> Closed(RoundsExhausted)
      decreases if left > 0 then left else 0, 0
    {
      hide Took;
      ghost var w := Value();
      actions := [];
      DriveNone(w, runId);
      ghost var more;
      if calls == [] || left <= 0 {
        DriveOn(w, runId, actions, Action.Finish);
        Finish(calls, left, false);
        actions := actions + [Action.Finish];
        more := CloseRun();
        DriveConcat(w, runId, actions, more);
        actions := actions + more;
        return;
      }
      var rest := calls;
      while rest != []
        invariant !gone && pc == if rest == [] then RoundDone(left) else Calling(rest, left)
        invariant state.status == old(state.status)
        invariant Value() == Drive(w, runId, actions)
        decreases |rest|
      {
        var flow;
        assert [rest[0]] + rest[1..] == rest;
        flow, more := RunCall(rest[0], rest[1..], left);
        DriveConcat(w, runId, actions, more);
        actions := actions + more;
        rest := rest[1..];
        if flow == Halt { return; }
        if flow == Break {
          DriveOn(w, runId, actions, Action.Finish);
          Finish(rest, left, true);
          actions := actions + [Action.Finish];
          more := CloseRun();
          DriveConcat(w, runId, actions, more);
          actions := actions + more;
          return;
        }
      }
      DriveOn(w, runId, actions, Action.EndRound);
      EndRound(left);
      actions := actions + [Action.EndRound];
      more := ContinueAfterRound(left - 1);
      DriveConcat(w, runId, actions, more);
      actions := actions + more;
    }

    /** resume: from a loaded state to wherever this execution gets. */
    method ResumeAgent() returns (ghost actions: seq<Action>)
      requires !gone && pc == Loaded
      modifies this, registers, state
      ensures Value() == Drive(old(Value()), runId, actions)
      ensures Over(old(state.status) == Running)
    {
      hide Took, IsOver, EndsWith;
      ghost var w := Value();
      DriveNone(w, runId);
      DriveOn(w, runId, [], Action.Begin);
      var at := Begin();
      actions := [] + [Action.Begin];
      if at == None { return; }
      ghost var more;
      match at.value {
        case AskModel(left) => more := ContinueAfterRound(left);
        case RunCalls(calls, left) => more := ContinueToolLoop(calls, left);
      }
      DriveConcat(w, runId, actions, more);
      actions := actions + more;
    }

    /** start: a new run from its first event. */
    method StartAgent() returns (ghost actions: seq<Action>)
      requires !gone && pc == Fresh
      modifies this, registers, state
      ensures Value() == Drive(old(Value()), runId, actions)
      ensures Over(old(state.status) == Running)
    {
      hide Took, IsOver, EndsWith;
      ghost var w := Value();
      DriveNone(w, runId);
      DriveOn(w, runId, [], Action.StartRun);
      var goes := StartRun();
      actions := [] + [Action.StartRun];
      if !goes { return; }
      ghost var more := ContinueAfterRound(state.request.maxToolRounds);
      DriveConcat(w, runId, actions, more);
      actions := actions + more;
    }

    /** _continue_after_completed_tool_round: ask the model again, then loop on its calls. */
    method ContinueAfterRound(left: int) returns (ghost actions: seq<Action>)
      requires !gone && pc == Chatting(left)
      modifies this, registers, state
      ensures Value() == Drive(old(Value()), runId, actions)
      ensures Over(old(state.status) == Running)
      decreases if left > 0 then left else 0, 1
    {
      hide Took, IsOver, EndsWith;
      ghost var w := Value();
      actions := [];
      DriveNone(w, runId);
      var deltas: nat := *;
      while deltas > 0
        invariant !gone && pc == Chatting(left) && state.status == old(state.status)
        invariant Value() == Drive(w, runId, actions)
      {
        var text: string := *;
        DriveOn(w, runId, actions, Action.Delta(text));
        var goes := Delta(text);
        actions := actions + [Action.Delta(text)];
        if !goes { return; }
        deltas := deltas - 1;
      }
      var response: Response := *;
      DriveOn(w, runId, actions, Action.Respond(response));
      var goes := Respond(response, left);
      actions := actions + [Action.Respond(response)];
      if !goes { return; }
      ghost var more := ContinueToolLoop(response.message.calls, left);
      DriveConcat(w, runId, actions, more);
      actions := actions + more;
    }
  }

  lemma StartIs(d: Durable, live: Live, id: nat, runId: string)
    requires live.pc == Fresh
    ensures ActSegment(d, live, id, runId, Action.StartRun)
            == Persist(d, live, live.run.(steps := live.run.steps + [BareStep(StartStep).(eventId := Some(id))]),
                       BareEvent(RunStarted), id, Chatting(live.run.request.maxToolRounds))
  {
    hide Persist;
  }

  lemma BeginIs(d: Durable, live: Live, id: nat, runId: string)
    requires live.pc == Loaded
    ensures ActSegment(d, live, id, runId, Action.Begin)
            == if Resume(live) == None then Segment(FailWrites(d, live, id), None) else Segment([], Resume(live))
  {
    hide Resume, FailWrites;
  }

  lemma FinallyIs(d: Durable, live: Live, id: nat, runId: string)
    ensures ActSegment(d, live, id, runId, Action.Interrupt) == Segment(FinallyWrites(d, live), None)
    ensures live.pc == Ended ==> ActSegment(d, live, id, runId, Action.Return) == Segment(FinallyWrites(d, live), None)
  {
    hide FinallyWrites;
  }

  function OutcomeAction(outcome: Outcome): Action {
    match outcome
    case Returned(result) => ToolReturns(result)
    case Raised(error) => ToolRaises(error)
  }

  lemma DriveNone(w: World, runId: string)
    ensures Drive(w, runId, []) == w
  {
  }

  lemma NothingApplied(d: Durable)
    ensures ApplyAll(d, []) == d
  {
  }

  lemma ExecuteIs(d: Durable, live: Live, id: nat, runId: string, tool: Option<ReplayPolicy>)
    requires live.pc.Executing?
    ensures var Executing(call, rest, left) := live.pc;
            var seg := ActSegment(d, live, id, runId, Action.Execute(tool));
            if call.name == None then
              seg == Segment([], Some(Live(live.run, InTool(call, rest, left, None), false, live.jumped)))
            else
              match PlanCall(d.ledger, runId, Round(live.run.steps), call.id, tool)
              case Serve(result) => seg == RecordTool(d, live, ResultEvent(call, result), id, rest, left)
              case ServeError(error) => seg == RecordTool(d, live, ErrorEvent(call, error), id, rest, left)
              case ToolMissing => seg == RecordTool(d, live, ErrorEvent(call, "tool not found"), id, rest, left)
              case Refuse(_) => seg == Segment(FailWrites(d, live, id), None)
              case DispatchNew(a) =>
                seg == Segment([Create(a)] + [Put(a.(status := Started)), Send(SentOf(a))],
                               Some(Live(live.run, InTool(call, rest, left, Some(a.(status := Started))), false, live.jumped)))
              case DispatchScheduled(a) =>
                seg == Segment([Put(a.(status := Started)), Send(SentOf(a))],
                               Some(Live(live.run, InTool(call, rest, left, Some(a.(status := Started))), false, live.jumped)))
  {
    hide RecordTool, FailWrites, PlanCall, Round;
  }

  lemma ConcludeIs(d: Durable, live: Live, id: nat, runId: string, outcome: Outcome)
    requires live.pc.InTool?
    ensures var e := match outcome case Returned(r) => ResultEvent(live.pc.call, r) case Raised(x) => ErrorEvent(live.pc.call, x);
            ActSegment(d, live, id, runId, OutcomeAction(outcome))
            == Close(live.pc.attempt, outcome, RecordTool(d, live, e, id, live.pc.rest, live.pc.left))
  {
    hide RecordTool, Close;
  }

  /** Closing the attempt first and recording then is the whole segment. */
  lemma CloseIs(d: Durable, after: Durable, live: Live, attempt: Option<Attempt>, outcome: Outcome, e: Event, id: nat,
                rest: seq<ToolCall>, left: int)
    requires ProgressOf(e).Some?
    requires after == if attempt.Some? then Apply(d, Put(Concluded(attempt.value, outcome))) else d
    ensures var seg, rec := Close(attempt, outcome, RecordTool(d, live, e, id, rest, left)), RecordTool(after, live, e, id, rest, left);
            seg.next == rec.next && ApplyAll(d, seg.writes) == ApplyAll(after, rec.writes)
  {
    hide Stamp, Noted, PutAttempt, PausedAt, IsCheckpoint;
    var rec := RecordTool(d, live, e, id, rest, left);
    assert rec == RecordTool(after, live, e, id, rest, left);
    if attempt.Some? {
      assert ([Put(Concluded(attempt.value, outcome))] + rec.writes)[1..] == rec.writes;
    }
  }

  lemma EndRoundIs(d: Durable, live: Live, id: nat, runId: string)
    requires live.pc.RoundDone?
    ensures ActSegment(d, live, id, runId, Action.EndRound)
            == Segment([], Some(Live(live.run.(remaining := live.pc.left - 1), Chatting(live.pc.left - 1), false, live.jumped)))
  {
  }

  lemma FinishIs(d: Durable, live: Live, id: nat, runId: string)
    requires live.pc.Broken? || (live.pc.Calling? && (live.pc.calls == [] || live.pc.left <= 0))
    ensures ActSegment(d, live, id, runId, Action.Finish)
            == Segment([], Some(Live(FinishRun(live.run, live.pc), Stopping, false, live.jumped)))
  {
    hide FinishRun;
  }

  lemma StopIs(d: Durable, live: Live, id: nat, runId: string)
    requires live.pc == Stopping && live.run.stop.Some?
    ensures var run := live.run;
            && ActSegment(d, live, id, runId, Action.WriteMemory)
               == Persist(d, live, run.(steps := run.steps + [BareStep(MemoryStep).(eventId := Some(id))]),
                          BareEvent(MemoryWritten), id, Stopping)
            && ActSegment(d, live, id, runId, Action.StopRun)
               == Persist(d, live, Stopped(run, id), StopEvent(StopBy(run.stop.value)), id, Ended)
  {
    hide Persist, Stopped;
  }

  lemma MemoryKeepsStop(d: Durable, live: Live, id: nat)
    ensures var next := Persist(d, live, live.run, BareEvent(MemoryWritten), id, Stopping).next;
            next.Some? && next.value.pc == Stopping ==> next.value.run.stop == live.run.stop
  {
    hide Jumped, Stamp;
  }

  /** Where the loop goes on after a result or an error. */
  function GoesTo(e: Event, recover: bool, rest: seq<ToolCall>, left: int): Pc {
    if e.kind == ToolFailed && !recover then Broken(left) else if rest == [] then RoundDone(left) else Calling(rest, left)
  }

  lemma RecordIs(d: Durable, live: Live, e: Event, id: nat, rest: seq<ToolCall>, left: int)
    requires ProgressOf(e).Some?
    ensures RecordTool(d, live, e, id, rest, left)
            == Persist(d, live, live.run.(steps := live.run.steps + [ProgressOf(e).value.(eventId := Some(id))]), e, id,
                       GoesTo(e, live.run.request.recoverToolErrors, rest, left))
  {
    hide Persist;
  }

  lemma DeltaIs(d: Durable, live: Live, id: nat, runId: string, text: string)
    requires live.pc.Chatting?
    ensures var e := Stamp(BareEvent(ChatDelta), id, |d.journal| + 1);
            ActSegment(d, live, id, runId, Action.Delta(text))
            == if d.snap.status == Canceled then Segment([], None)
               else Segment([Append(e)], Some(Live(Noted(live.run, e), live.pc, false, Jumped(d, live))))
  {
    hide Jumped, Stamp, Noted;
  }

  lemma RespondIs(d: Durable, live: Live, id: nat, runId: string, response: Response)
    requires live.pc.Chatting?
    ensures ActSegment(d, live, id, runId, Action.Respond(response))
            == Persist(d, live, Responded(live.run, response, id), ChatEvent(live.run, response), id,
                       Calling(response.message.calls, live.pc.left))
  {
    hide Persist, Responded, ChatEvent;
  }

  /** What taking up a call amounts to, action by action. */
  lemma CallIs(d: Durable, live: Live, id: nat, runId: string, call: ToolCall, approval: Option<string>, text: string)
    requires CanCall(live.pc, call)
    ensures var run, left, rest := live.run, live.pc.left, live.pc.calls[1..];
            var entered := Enter(run, left);
            && ActSegment(d, live, id, runId, AskApproval(call, approval))
               == Persist(d, live, entered, BareEvent(ApprovalRequested).(call := Some(call), approval := approval), id, live.pc)
            && ActSegment(d, live, id, runId, DecideApproval(call))
               == Persist(d, live, entered, BareEvent(ApprovalDecided).(call := Some(call)), id, live.pc)
            && ActSegment(d, live, id, runId, PauseForApproval(call, text))
               == Persist(d, live, run.(status := Paused, stop := None, remaining := left,
                                        pendingCalls := [call] + rest, pendingApprovals := [text]),
                          BareEvent(RunPaused).(call := Some(call), approval := Some(text)), id, Ended)
            && ActSegment(d, live, id, runId, StartTool(call))
               == Persist(d, live, entered.(steps := Touch(run.steps, ToolStep, id)),
                          BareEvent(ToolStarted).(call := Some(call)), id, Executing(call, rest, left))
            && ActSegment(d, live, id, runId, SkipStart(call))
               == Segment([], Some(Live(entered, Executing(call, rest, left), false, live.jumped)))
            && ActSegment(d, live, id, runId, RejectTool(call, text))
               == RecordTool(d, live.(run := entered), ErrorEvent(call, text), id, rest, left)
  {
    hide Persist, RecordTool, Touch, ErrorEvent;
  }

  lemma NotedEndsWith(run: Run, e: Event)
    ensures Noted(run, e).status == run.status && Noted(run, e).stop == run.stop && EndsWith(Noted(run, e), e)
  {
  }

  lemma EndsStill(run: Run, saved: Run, stamped: Event, e: Event)
    requires EndsWith(run, stamped) && saved.trace == run.trace && e.kind == stamped.kind && e.stop == stamped.stop
    ensures EndsWith(saved, e)
  {
  }

  lemma FailedIs(run: Run, e: Event)
    ensures FailedBy(run, e).status == Failed
  {
  }

  lemma StampKeeps(e: Event, id: nat, n: nat)
    ensures Stamp(e, id, n).kind == e.kind && Stamp(e, id, n).stop == e.stop && Stamp(e, id, n).sequence == Some(n)
  {
  }

  lemma AppendOnly(d: Durable, e: Event)
    ensures Apply(d, Append(e)).snap == d.snap && |Apply(d, Append(e)).journal| == |d.journal| + 1
  {
  }

  lemma PausedWrites(d: Durable, e: Event, p: Event, run: Run, jumped: set<nat>)
    ensures ApplyAll(d, [Append(e), Append(p), Save(run, jumped), Save(run, jumped)])
            == Apply(Apply(Apply(Apply(d, Append(e)), Append(p)), Save(run, jumped)), Save(run, jumped))
  {
    hide Apply;
    var ws := [Append(e), Append(p), Save(run, jumped), Save(run, jumped)];
    assert ws[1..] == [Append(p), Save(run, jumped), Save(run, jumped)];
    ApplyThree(Apply(d, Append(e)), Append(p), Save(run, jumped), Save(run, jumped));
  }
}
