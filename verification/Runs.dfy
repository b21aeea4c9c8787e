/** The records of a durable agent run: snapshot, trace events and ledger attempts
    (core/schema/agent.py), with the queries of application/agent_state.py. */
module Runs {
  import opened Wrappers
  import opened Content

  datatype Response = Response(message: Message, details: string)

  datatype ToolResult = ToolResult(id: string, text: string)

  datatype StepKind = StartStep | ChatStep | ToolStep | ToolErrorStep | MemoryStep | StopStep

  datatype Step = Step(
    kind: StepKind,
    eventId: Option<nat>,
    response: Option<Response>,
    message: Option<Message>,
    call: Option<ToolCall>,
    result: Option<ToolResult>,
    error: Option<string>)

  datatype EventKind =
    | RunStarted | ChatDelta | ChatCompleted
    | ApprovalRequested | ApprovalDecided
    | ToolStarted | ToolCompleted | ToolFailed
    | ExecutionResolved | MemoryWritten | RunPaused | RunStopped

  datatype StopReason = Finished | RoundsExhausted | ToolError

  /** The "reason" entry of a run_stopped event. */
  datatype StopText = StopBy(reason: StopReason) | FailedText | CanceledText | OtherText

  datatype Event = Event(
    kind: EventKind,
    id: Option<nat>,
    sequence: Option<nat>,
    response: Option<Response>,
    message: Option<Message>,
    call: Option<ToolCall>,
    result: Option<ToolResult>,
    error: Option<string>,
    approval: Option<string>,
    remaining: Option<int>,
    stop: StopText)

  datatype RunStatus = Running | Paused | Canceled | Done | Failed

  datatype PauseCause = Manual | Timeout | Shutdown | UncleanShutdown | LeaseExpired

  datatype Checkpoint =
    | IncompleteTrace | StoppedRun | FinalizationIncomplete | StartedRun
    | ApprovalPending | ToolReplayReady | ToolExecutionIncomplete
    | ToolRoundCompleted | ChatOnlyCompleted
    | AtEvent(event: EventKind) | OperatorResolution

  datatype Pause = Pause(cause: PauseCause, checkpoint: Checkpoint, resumable: bool)

  datatype Request = Request(messages: seq<Message>, maxToolRounds: nat, recoverToolErrors: bool)

  /** One snapshot of AgentRunState. `applied` is applied_trace_sequence. */
  datatype Run = Run(
    request: Request,
    status: RunStatus,
    stop: Option<StopReason>,
    response: Option<Response>,
    steps: seq<Step>,
    trace: seq<Event>,
    applied: nat,
    remaining: int,
    pendingCalls: seq<ToolCall>,
    pendingApprovals: seq<string>,
    pause: Option<Pause>,
    pauseRequest: bool)

  datatype ReplayPolicy = Safe | Idempotent | NonReplayable

  datatype AttemptStatus = Scheduled | Started | Completed | AttemptFailed | Unknown

  datatype Resolution = ConfirmCompleted | Retry | AbandonAndRetryRun

  /** One attempt of one tool call in the ledger of a run; `round` is None for a legacy row. */
  datatype Attempt = Attempt(
    id: string,
    number: nat,
    round: Option<nat>,
    status: AttemptStatus,
    policy: ReplayPolicy,
    key: string,
    result: Option<ToolResult>,
    error: Option<string>,
    resolution: Option<Resolution>)

  function NewRun(request: Request): Run {
    Run(request, Running, None, None, [], [], 0, request.maxToolRounds, [], [], None, false)
  }

  function BareEvent(kind: EventKind): Event {
    Event(kind, None, None, None, None, None, None, None, None, None, OtherText)
  }

  function BareStep(kind: StepKind): Step {
    Step(kind, None, None, None, None, None, None)
  }

  predicate IsToolStep(s: Step) {
    s.kind == ToolStep || s.kind == ToolErrorStep
  }

  /** The steps a journal can rebuild: model responses, tool results and tool errors. */
  predicate IsProgress(s: Step) {
    s.kind == ChatStep || IsToolStep(s)
  }

  function CallsOf(r: Option<Response>): seq<ToolCall> {
    if r.Some? then r.value.message.calls else []
  }

  /** current_tool_round: the number of model responses recorded so far. */
  function Round(steps: seq<Step>): nat {
    if steps == [] then 0
    else Round(steps[..|steps| - 1]) + if steps[|steps| - 1].kind == ChatStep then 1 else 0
  }

  /** current_round_completed_tool_call_ids. */
  function CompletedIds(steps: seq<Step>): set<string> {
    if steps == [] then {}
    else
      var last := steps[|steps| - 1];
      if last.kind == ChatStep then {}
      else
        var before := CompletedIds(steps[..|steps| - 1]);
        if IsToolStep(last) && last.call.Some? then before + {last.call.value.id} else before
  }

  function IncompleteCalls(calls: seq<ToolCall>, completed: set<string>): (rest: seq<ToolCall>)
    ensures forall c :: c in rest <==> c in calls && c.id !in completed
  {
    if calls == [] then []
    else if calls[0].id in completed then IncompleteCalls(calls[1..], completed)
    else [calls[0]] + IncompleteCalls(calls[1..], completed)
  }

  predicate CanResume(run: Run) {
    run.pause == None || run.pause.value.resumable
  }
}
