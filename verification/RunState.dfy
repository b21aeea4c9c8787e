/** The run state object that executions, control calls and recovery update in place, and the
    registers it is stored in (core/schema/agent.py, agent_recovery.py, agent_state.py). */
module RunObjects {
  import opened Wrappers
  import opened Content
  import opened Runs
  import opened Recovery
  import opened Ledger
  import opened Machine

  /** Where a resumed execution takes up its work. */
  datatype Continue = AskModel(left: int) | RunCalls(calls: seq<ToolCall>, left: int)

  function PcOf(at: Continue): Pc {
    match at
    case AskModel(left) => Chatting(left)
    case RunCalls(calls, left) => Calling(calls, left)
  }

  /** What resuming a paused run amounts to, in values. */
  ghost predicate WakesAs(run: Run, at: Option<Continue>, woken: Run) {
    forall yielded, jumped :: Resume(Live(run, Loaded, yielded, jumped))
                              == if at == None then None else Some(Live(woken, PcOf(at.value), false, jumped))
  }

  /** AgentRunState. `Value` is the snapshot that saving it would store. */
  class RunState {
    const request: Request
    var status: RunStatus
    var stop: Option<StopReason>
    var response: Option<Response>
    var steps: seq<Step>
    var trace: seq<Event>
    var applied: nat
    var remaining: int
    var pendingCalls: seq<ToolCall>
    var pendingApprovals: seq<string>
    var pause: Option<Pause>
    var pauseRequest: bool

    function Value(): Run
      reads this
    {
      Run(request, status, stop, response, steps, trace, applied, remaining,
          pendingCalls, pendingApprovals, pause, pauseRequest)
    }

    /** A state read back from its register. */
    constructor (run: Run)
      ensures Value() == run
    {
      request := run.request;
      status, stop, response, steps := run.status, run.stop, run.response, run.steps;
      trace, applied, remaining := run.trace, run.applied, run.remaining;
      pendingCalls, pendingApprovals := run.pendingCalls, run.pendingApprovals;
      pause, pauseRequest := run.pause, run.pauseRequest;
    }

    /** An appended event goes into the trace and moves the watermark. */
    method Note(e: Event)
      modifies this
      ensures Value() == Noted(old(Value()), e)
    {
      if e.sequence.Some? { applied := e.sequence.value; }
      trace := trace + [e];
    }

    /** _add_trace: the last step takes over the id of an event of its own kind. */
    method TouchLastStep(kind: StepKind, id: nat)
      modifies this`steps
      ensures Value() == old(Value()).(steps := Touch(old(steps), kind, id))
    {
      if steps != [] && steps[|steps| - 1].kind == kind {
        steps := steps[..|steps| - 1] + [steps[|steps| - 1].(eventId := Some(id))];
      }
    }

    /** current_round_completed_tool_call_ids: the steps after the last response, newest first. */
    method CompletedToolCallIds() returns (completed: set<string>)
      ensures completed == CompletedIds(steps)
    {
      completed := {};
      var i := |steps|;
      assert steps[..i] == steps;
      while i > 0
        invariant 0 <= i <= |steps|
        invariant completed + CompletedIds(steps[..i]) == CompletedIds(steps)
      {
        var step := steps[i - 1];
        assert steps[..i][..i - 1] == steps[..i - 1];
        if step.kind == ChatStep { break; }
        if IsToolStep(step) && step.call.Some? {
          completed := completed + {step.call.value.id};
        }
        i := i - 1;
      }
    }

    method CurrentToolRound() returns (round: nat)
      ensures round == Round(steps)
    {
      round := 0;
      var i := 0;
      while i < |steps|
        invariant 0 <= i <= |steps| && round == Round(steps[..i])
      {
        assert steps[..i + 1][..i] == steps[..i];
        if steps[i].kind == ChatStep { round := round + 1; }
        i := i + 1;
      }
      assert steps[..i] == steps;
    }

    /** The saved events of the trace by sequence; a later event of a sequence wins. */
    method SavedEvents() returns (saved: map<nat, Event>)
      ensures forall n :: SavedEvent(trace, n) == if n in saved then Some(saved[n]) else None
    {
      saved := map[];
      var i := 0;
      while i < |trace|
        invariant 0 <= i <= |trace|
        invariant forall n :: SavedEvent(trace[..i], n) == if n in saved then Some(saved[n]) else None
      {
        assert trace[..i + 1][..i] == trace[..i];
        if trace[i].sequence.Some? { saved := saved[trace[i].sequence.value := trace[i]]; }
        i := i + 1;
      }
      assert trace[..i] == trace;
    }

    /** _checkpoint_trace_tail with _require_contiguous_trace. */
    method CheckpointTail(events: seq<Event>) returns (tail: Result<seq<Event>, RecoveryError>)
      ensures tail == Tail(Value(), events)
    {
      var saved := SavedEvents();
      var i := 0;
      while i < |events|
        invariant 0 <= i <= |events|
        invariant forall k :: 0 <= k < i ==> !Reuses(trace, events[k])
      {
        var e := events[i];
        if e.sequence.Some? && e.sequence.value in saved {
          var known := saved[e.sequence.value];
          if known.id.Some? && e.id.Some? && known.id != e.id {
            assert Reuses(trace, e);
            return Failure(SequenceReused);
          }
        }
        i := i + 1;
      }
      var after: seq<Event> := [];
      i := 0;
      assert events[0..] == events;
      while i < |events|
        invariant 0 <= i <= |events|
        invariant after + After(events[i..], applied) == After(events, applied)
      {
        assert events[i..][1..] == events[i + 1..];
        if Beyond(events[i], applied) { after := after + [events[i]]; }
        i := i + 1;
      }
      assert after == After(events, applied);
      var previous := applied;
      i := 0;
      assert after[0..] == after;
      while i < |after|
        invariant 0 <= i <= |after|
        invariant Contiguous(after[i..], previous) == Contiguous(after, applied)
      {
        assert after[i..][1..] == after[i + 1..];
        if after[i].sequence.Some? {
          if after[i].sequence.value != previous + 1 { return Failure(MissingEvents); }
          previous := after[i].sequence.value;
        }
        i := i + 1;
      }
      assert after[i..] == [];
      return Success(after);
    }

    /** The branches of the replay loop for one event; an error changes nothing. */
    method ReplayEvent(e: Event) returns (error: Option<RecoveryError>)
      modifies this
      ensures match Effect(old(Value()), e)
              case Success(run) => error == None && Value() == run
              case Failure(why) => error == Some(why) && Value() == old(Value())
    {
      error := None;
      match e.kind
      case ChatCompleted =>
        if e.response == None { return Some(NoResponse); }
        if e.remaining.Some? && 0 <= e.remaining.value <= request.maxToolRounds {
          remaining := e.remaining.value;
        } else {
          var chats := CurrentToolRound();
          remaining := if request.maxToolRounds > chats then request.maxToolRounds - chats else 0;
        }
        response := e.response;
        pendingCalls, pendingApprovals := [], [];
        steps := steps + [BareStep(ChatStep).(eventId := e.id, response := e.response,
                            message := if e.message.Some? then e.message else Some(e.response.value.message))];
      case ToolCompleted =>
        if e.call == None { return Some(NoToolCall); }
        steps := steps + [BareStep(ToolStep).(eventId := e.id, message := e.message, call := e.call,
                                              result := e.result, error := e.error)];
      case ToolFailed =>
        if e.call == None { return Some(NoToolCall); }
        steps := steps + [BareStep(ToolErrorStep).(eventId := e.id, message := e.message, call := e.call,
                                                   result := e.result, error := e.error)];
      case ApprovalRequested =>
        if e.approval.Some? {
          pendingApprovals := pendingApprovals + [e.approval.value];
          pendingCalls := CallsOf(response);
        }
      case MemoryWritten =>
        steps := steps + [BareStep(MemoryStep).(eventId := e.id)];
      case RunStopped =>
        error := ReplayStop(e);
      case _ =>
    }

    method ReplayStop(e: Event) returns (error: Option<RecoveryError>)
      modifies this
      ensures match StopEffect(old(Value()), e)
              case Success(run) => error == None && Value() == run
              case Failure(why) => error == Some(why) && Value() == old(Value())
    {
      error := None;
      match e.stop {
        case StopBy(reason) =>
          stop := Some(reason);
          status := if reason == StopReason.Finished then Done else Failed;
          if !(exists s: Step :: s in steps && s.kind == StopStep) {
            steps := steps + [BareStep(StopStep).(eventId := e.id)];
          }
        case FailedText => status, stop := Failed, None;
        case CanceledText => status, stop := Canceled, None;
        case OtherText => return Some(UnknownStop);
      }
      pendingCalls, pendingApprovals := [], [];
    }

    method AppliedIds() returns (ids: set<nat>)
      ensures ids == StepIds(steps)
    {
      ids := set i | 0 <= i < |steps| && steps[i].eventId.Some? :: steps[i].eventId.value;
    }

    /** _restore_checkpoint_data: replay the tail of the journal over this state. An error
        leaves the state as the events before it made it. */
    method RestoreCheckpointData(events: seq<Event>) returns (error: Option<RecoveryError>)
      modifies this
      ensures (Value(), error) == Restore(old(Value()), events)
    {
      var tail := CheckpointTail(events);
      if tail.Failure? { return Some(tail.error); }
      var seen := AppliedIds();
      var todo := tail.value;
      while todo != []
        invariant Replay(Value(), seen, todo) == Restore(old(Value()), events)
        decreases |todo|
      {
        var e := todo[0];
        ghost var before, old_ := Value(), seen;
        if e.id.Some? && e.id.value in seen {
          if e.sequence.Some? { applied := e.sequence.value; }
          assert Value() == Advance(before, e);
        } else {
          var failed := ReplayEvent(e);
          if failed.Some? { return failed; }
          ghost var changed := Value();
          if e.id.Some? { seen := seen + {e.id.value}; }
          if e.sequence.Some? { applied := e.sequence.value; }
          if e !in trace { trace := trace + [e]; }
          assert Value() == Record(changed, e);
          OneId(e);
          assert seen == old_ + EventIds([e]);
          assert Effect(before, e) == Success(changed);
        }
        assert todo[0] == e;
        todo := todo[1..];
      }
      return None;
    }

    /** _resume_agent_events: a paused run is woken where it stopped, or left as it is. */
    method Wake() returns (at: Option<Continue>)
      modifies this
      ensures WakesAs(old(Value()), at, Value()) && (at == None ==> Value() == old(Value()))
      ensures at.Some? ==> status == Running
    {
      hide IncompleteCalls, CompletedIds;
      if status != Paused || (pause.Some? && !pause.value.resumable) { return None; }
      if pause.Some? {
        at := WakeAtCheckpoint();
        return;
      }
      if response == None || pendingCalls == [] { return None; }
      at := Some(RunCalls(pendingCalls, remaining));
      status, stop := Running, Some(StopReason.Finished);
      pendingCalls, pendingApprovals := [], [];
    }

    /** _resume_checkpoint_events: on to the first model call, the incomplete calls of the round,
        the follow-up of a complete round, or the end. */
    method WakeAtCheckpoint() returns (at: Option<Continue>)
      requires status == Paused && pause.Some? && pause.value.resumable
      modifies this
      ensures at.Some? && WakesAs(old(Value()), at, Value()) && status == Running
    {
      hide IncompleteCalls, CompletedIds;
      var calls := CallsOf(response);
      var completed := CompletedToolCallIds();
      var rest := IncompleteCalls(calls, completed);
      if response == None {
        at := Some(AskModel(request.maxToolRounds));
      } else if rest != [] {
        at := Some(RunCalls(rest, remaining));
      } else if calls != [] {
        remaining := if remaining - 1 > 0 then remaining - 1 else 0;
        at := Some(AskModel(remaining));
      } else {
        at := Some(RunCalls([], remaining));
      }
      status, stop, pause, pauseRequest := Running, None, None, false;
      pendingCalls, pendingApprovals := [], [];
    }

    /** inspect_agent_run_checkpoint. */
    method InspectCheckpoint(events: seq<Event>, attempts: Option<seq<Attempt>>)
      returns (eligible: bool, checkpoint: Checkpoint)
      modifies this
      ensures (Value(), eligible, checkpoint) == Inspect(old(Value()), events, attempts)
    {
      var error := RestoreCheckpointData(events);
      if error.Some? { return false, IncompleteTrace; }
      if status in {Done, Failed, Canceled} { return false, StoppedRun; }
      if exists s: Step :: s in steps && s.kind in {StopStep, MemoryStep} { return false, FinalizationIncomplete; }
      if response == None {
        if exists s: Step :: s in steps && s.kind != StartStep { return false, IncompleteTrace; }
        return true, StartedRun;
      }
      var calls := CallsOf(response);
      var completed := CompletedToolCallIds();
      var rest := IncompleteCalls(calls, completed);
      if rest == [] { return true, if calls != [] then ToolRoundCompleted else ChatOnlyCompleted; }
      if pendingApprovals != [] && forall c: ToolCall :: c in rest ==> c.id in pendingApprovals {
        return true, ApprovalPending;
      }
      if attempts.Some? {
        var round := CurrentToolRound();
        var ready := AllResumable(attempts.value, round, rest);
        if ready { return true, ToolReplayReady; }
      }
      return false, ToolExecutionIncomplete;
    }
  }

  lemma OneId(e: Event)
    ensures EventIds([e]) == if e.id.Some? then {e.id.value} else {}
  {
    assert [e][0] == e;
  }

  // -------------------------------------------------------------------- attempts

  /** _latest_tool_execution_attempts over _round_tool_execution_attempts. */
  method LatestAttempts(attempts: seq<Attempt>, round: nat) returns (latest: map<string, Attempt>)
    ensures forall id :: Latest(attempts, round, id) == if id in latest then Some(latest[id]) else None
  {
    latest := map[];
    var i := 0;
    while i < |attempts|
      invariant 0 <= i <= |attempts|
      invariant forall id :: Latest(attempts[..i], round, id) == if id in latest then Some(latest[id]) else None
    {
      var a := attempts[i];
      assert attempts[..i + 1][..i] == attempts[..i];
      if a.round == Some(round) && (a.id !in latest || a.number > latest[a.id].number) {
        latest := latest[a.id := a];
      }
      i := i + 1;
    }
    assert attempts[..i] == attempts;
  }

  lemma GreatestStep(attempts: seq<Attempt>, i: nat, id: string)
    requires i < |attempts|
    ensures var before, a := GreatestNumber(attempts[..i], id), attempts[i];
            GreatestNumber(attempts[..i + 1], id) == if a.id == id && a.number > before then a.number else before
  {
    assert attempts[..i + 1][..i] == attempts[..i];
  }

  method NextAttemptNumber(attempts: seq<Attempt>, id: string) returns (number: nat)
    ensures number == NextNumber(attempts, id)
  {
    var greatest := 0;
    var i := 0;
    while i < |attempts|
      invariant 0 <= i <= |attempts|
      invariant greatest == GreatestNumber(attempts[..i], id)
    {
      hide GreatestNumber;
      GreatestStep(attempts, i, id);
      if attempts[i].id == id && attempts[i].number > greatest { greatest := attempts[i].number; }
      i := i + 1;
    }
    assert attempts[..i] == attempts;
    return greatest + 1;
  }

  method AllResumable(attempts: seq<Attempt>, round: nat, calls: seq<ToolCall>) returns (ready: bool)
    ensures ready <==> ReplayReady(attempts, round, calls)
  {
    var latest := LatestAttempts(attempts, round);
    var i := 0;
    while i < |calls|
      invariant 0 <= i <= |calls|
      invariant forall k :: 0 <= k < i ==> Resumable(attempts, round, calls[k].id)
    {
      var id := calls[i].id;
      var attempt := if id in latest then Some(latest[id]) else None;
      if HasUnscoped(attempts, id) || !CanRerun(attempt) {
        assert calls[i] in calls && !Resumable(attempts, round, calls[i].id);
        return false;
      }
      i := i + 1;
    }
    return true;
  }

  // ------------------------------------------------------------------- registers

  /** The state, trace and tool execution registers of one run. */
  class Registers {
    var snap: Run
    var journal: seq<Event>
    var ledger: seq<Attempt>
    ghost var earlier: seq<Run>
    ghost var sent: seq<Sent>
    ghost var retries: seq<Sent>
    ghost var skipped: set<nat>

    ghost function Value(): Durable
      reads this
    {
      Durable(snap, earlier, journal, ledger, sent, retries, skipped)
    }

    constructor (request: Request)
      ensures Value() == StartWorld(request).d
    {
      snap, journal, ledger := NewRun(request), [], [];
      earlier, sent, retries, skipped := [], [], [], {};
    }

    method SaveState(run: Run, ghost jumped: set<nat>)
      modifies this
      ensures Value() == Apply(old(Value()), Save(run, jumped))
    {
      earlier := earlier + [snap];
      snap := run;
      skipped := skipped + jumped;
    }

    /** append_event: the event is stored under the next sequence number. */
    method AppendEvent(e: Event, id: nat) returns (stamped: Event)
      modifies this`journal
      ensures stamped == Stamp(e, id, |old(journal)| + 1)
      ensures Value() == Apply(old(Value()), Append(stamped))
    {
      stamped := e.(id := Some(id), sequence := Some(|journal| + 1));
      journal := journal + [stamped];
    }

    method CreateAttempt(a: Attempt)
      modifies this`ledger
      ensures Value() == Apply(old(Value()), Create(a))
    {
      ledger := ledger + [a];
    }

    /** save_attempt: the row with this call id and number is replaced. */
    method SaveAttempt(a: Attempt)
      modifies this`ledger
      ensures Value() == Apply(old(Value()), Put(a))
    {
      var after: seq<Attempt> := [];
      var i := 0;
      while i < |ledger|
        invariant 0 <= i <= |ledger| && ledger == old(ledger)
        invariant after == PutAttempt(ledger, a)[..i]
      {
        after := after + [if ledger[i].id == a.id && ledger[i].number == a.number then a else ledger[i]];
        i := i + 1;
      }
      ledger := after;
    }

    method SaveResolution(a: Attempt)
      modifies this
      ensures Value() == Apply(old(Value()), Resolve(a))
    {
      SaveAttempt(a);
      if a.resolution == Some(Retry) { retries := retries + [SentOf(a)]; }
    }

    /** The moment the tool is really called. */
    ghost method Dispatch(a: Attempt)
      modifies this`sent
      ensures Value() == Apply(old(Value()), Send(SentOf(a)))
    {
      sent := sent + [SentOf(a)];
    }

    /** _mark_started_executions_unknown, and _reconcile_tool_executions. */
    method MarkStartedUnknown() returns (reconciled: seq<Attempt>)
      modifies this`ledger
      ensures Value() == ApplyAll(old(Value()), UnknownPuts(old(ledger)))
      ensures reconciled == ledger
    {
      var attempts := ledger;
      var i := 0;
      assert attempts[0..] == attempts;
      while i < |attempts|
        invariant 0 <= i <= |attempts|
        invariant ApplyAll(Value(), UnknownPuts(attempts[i..])) == ApplyAll(old(Value()), UnknownPuts(attempts))
      {
        assert attempts[i..][1..] == attempts[i + 1..];
        if attempts[i].status == Started {
          var w := attempts[i].(status := Unknown);
          assert UnknownPuts(attempts[i..]) == [Put(w)] + UnknownPuts(attempts[i + 1..]);
          assert UnknownPuts(attempts[i..])[1..] == UnknownPuts(attempts[i + 1..]);
          SaveAttempt(w);
        }
        i := i + 1;
      }
      return ledger;
    }
  }
}
