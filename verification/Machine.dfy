/** A durable run as a state machine (agent_execution.py, agent_runs.py, agent_recovery.py,
    agent_lifecycle.py). The code between two awaits is one operation; it yields the durable
    writes it performs in order, and a crash keeps any prefix of them. */
module Machine {
  import opened Wrappers
  import opened Content
  import opened Runs
  import opened Recovery
  import opened Ledger

  // -------------------------------------------------------------- durable state

  /** One tool call handed to its tool: the round, the call id and the attempt number. */
  datatype Sent = Sent(round: nat, id: string, number: nat)

  /** The durable side of a run. `earlier` remembers the snapshots that `snap` replaced,
      `sent` the tool calls really made, `retries` the RETRY resolutions, and `skipped` the
      journal positions that a stored snapshot jumped over without having applied them. */
  datatype Durable = Durable(
    snap: Run,
    earlier: seq<Run>,
    journal: seq<Event>,
    ledger: seq<Attempt>,
    sent: seq<Sent>,
    retries: seq<Sent>,
    skipped: set<nat>)

  datatype Write =
    | Append(event: Event)
    | Save(run: Run, jumped: set<nat>)
    | Create(attempt: Attempt)
    | Put(attempt: Attempt)
    | Resolve(attempt: Attempt)
    | Send(sent: Sent)

  function SentOf(a: Attempt): Sent {
    Sent(if a.round.Some? then a.round.value else 0, a.id, a.number)
  }

  function Range(from: nat, to: nat): (s: set<nat>)
    decreases if to > from then to - from else 0
    ensures forall i: nat :: i in s <==> from <= i < to
  {
    if from >= to then {} else {from} + Range(from + 1, to)
  }

  function Apply(d: Durable, w: Write): Durable {
    match w
    case Append(e) => d.(journal := d.journal + [e])
    case Save(run, jumped) => d.(snap := run, earlier := d.earlier + [d.snap], skipped := d.skipped + jumped)
    case Create(a) => d.(ledger := d.ledger + [a])
    case Put(a) => d.(ledger := PutAttempt(d.ledger, a))
    case Resolve(a) =>
      d.(ledger := PutAttempt(d.ledger, a),
         retries := if a.resolution == Some(Retry) then d.retries + [SentOf(a)] else d.retries)
    case Send(s) => d.(sent := d.sent + [s])
  }

  function ApplyAll(d: Durable, ws: seq<Write>): Durable
    decreases |ws|
  {
    if ws == [] then d else ApplyAll(Apply(d, ws[0]), ws[1..])
  }

  lemma ApplyOne(d: Durable, a: Write)
    ensures ApplyAll(d, [a]) == Apply(d, a)
  {
    assert [a][1..] == [];
  }

  lemma ApplyTwo(d: Durable, a: Write, b: Write)
    ensures ApplyAll(d, [a, b]) == Apply(Apply(d, a), b)
  {
    assert [a, b][1..] == [b];
    ApplyOne(Apply(d, a), b);
  }

  lemma ApplyThree(d: Durable, a: Write, b: Write, c: Write)
    ensures ApplyAll(d, [a, b, c]) == Apply(Apply(Apply(d, a), b), c)
  {
    assert [a, b, c][1..] == [b, c];
    ApplyTwo(Apply(d, a), b, c);
  }

  lemma {:induction false} ApplyConcat(d: Durable, a: seq<Write>, b: seq<Write>)
    ensures ApplyAll(d, a + b) == ApplyAll(ApplyAll(d, a), b)
    decreases |a|
  {
    hide Apply;
    if a == [] {
      assert a + b == b;
    } else {
      ApplyConcat(Apply(d, a[0]), a[1..], b);
      assert (a + b)[1..] == a[1..] + b;
    }
  }

  // ------------------------------------------------------------ live executions

  /** Where an execution of the run stands between two operations. `left` is the local
      remaining_rounds of the tool loop. */
  datatype Pc =
    | Fresh
    | Loaded
    | Chatting(left: int)
    | Calling(calls: seq<ToolCall>, left: int)
    | Executing(call: ToolCall, rest: seq<ToolCall>, left: int)
    | InTool(call: ToolCall, rest: seq<ToolCall>, left: int, attempt: Option<Attempt>)
    | RoundDone(left: int)
    | Broken(left: int)
    | Stopping
    | Ended

  /** The execution is running: neither just loaded nor at its end. */
  predicate InLoop(pc: Pc) {
    !pc.Loaded? && !pc.Ended?
  }

  /** An in-memory copy of the run. `yielded` holds just after an event was persisted, while
      the loop of _stream_and_store may still look for a pause request; `jumped` holds the
      journal positions its watermark passed without applying them. */
  datatype Live = Live(run: Run, pc: Pc, yielded: bool, jumped: set<nat>)

  datatype Segment = Segment(writes: seq<Write>, next: Option<Live>)

  datatype Action =
    | Begin
    | StartRun
    | Delta(text: string)
    | Respond(response: Response)
    | AskApproval(call: ToolCall, approval: Option<string>)
    | DecideApproval(call: ToolCall)
    | PauseForApproval(call: ToolCall, requested: string)
    | StartTool(call: ToolCall)
    | SkipStart(call: ToolCall)
    | RejectTool(call: ToolCall, error: string)
    | Execute(tool: Option<ReplayPolicy>)
    | ToolReturns(result: ToolResult)
    | ToolRaises(error: string)
    | EndRound
    | Finish
    | WriteMemory
    | StopRun
    | LatePause
    | Raise
    | Interrupt
    | Return

  datatype Op =
    | Load
    | RequestPause
    | Cancel
    | ResolveExecution(id: string, number: nat, confirmed: Option<string>)
    | Abandon
    | MarkFailed
    | Suspend(cause: PauseCause, transactional: bool)
    | Act(copy: nat, action: Action)

  /** An operation, and the number of its writes a crash lets through, if it crashes. */
  datatype Label = Label(op: Op, cut: Option<nat>)

  datatype World = World(d: Durable, copies: seq<Live>, nextId: nat)

  function StartWorld(request: Request): World {
    World(Durable(NewRun(request), [], [], [], [], [], {}), [Live(NewRun(request), Fresh, false, {})], 0)
  }

  // ------------------------------------------------------------------ persisting

  function Stamp(e: Event, id: nat, sequence: nat): Event {
    e.(id := Some(id), sequence := Some(sequence))
  }

  /** The run once an event has been appended: trace and watermark. */
  function Noted(run: Run, e: Event): Run {
    Advance(run, e).(trace := run.trace + [e])
  }

  /** _add_trace copies the event id onto a last step of the event's own kind. */
  function Touch(steps: seq<Step>, kind: StepKind, id: nat): seq<Step> {
    if steps != [] && steps[|steps| - 1].kind == kind
    then steps[..|steps| - 1] + [steps[|steps| - 1].(eventId := Some(id))]
    else steps
  }

  predicate IsCheckpoint(kind: EventKind) {
    kind in {RunStarted, ChatCompleted, ApprovalRequested, ApprovalDecided, ToolCompleted, ToolFailed}
  }

  /** Whether persisting an event of this kind pauses the run. */
  predicate PausesAt(d: Durable, run: Run, kind: EventKind) {
    d.snap.status == Running && d.snap.pauseRequest && run.status == Running && IsCheckpoint(kind)
  }

  /** The paused run and the event that _pause_at_checkpoint_if_requested adds after `kind`. */
  function PausedAt(run: Run, kind: EventKind, p: Event): Run {
    Noted(run, p).(status := Paused, stop := None, pauseRequest := false,
                   pause := Some(Pause(Manual, AtEvent(kind), true)))
  }

  /** The positions a copy passes over when it appends at the end of the journal. */
  function Jumped(d: Durable, live: Live): set<nat> {
    live.jumped + Range(live.run.applied, |d.journal|)
  }

  /** One turn of the loop of _stream_and_store over an event that is not a text delta. */
  function Persist(d: Durable, live: Live, run: Run, e: Event, id: nat, pc: Pc): Segment {
    if d.snap.status == Canceled then Segment([], None)
    else
      var n := |d.journal| + 1;
      var jumped := Jumped(d, live);
      var noted := Noted(run, Stamp(e, id, n));
      var append := Append(Stamp(e, id, n));
      if d.snap.status == Running && d.snap.pauseRequest && noted.status == Running then
        if IsCheckpoint(e.kind) then
          var p := Stamp(BareEvent(RunPaused), id + 1, n + 1);
          var paused := PausedAt(noted, e.kind, p);
          Segment([append, Append(p), Save(paused, jumped), Save(paused, jumped)], Some(Live(paused, Ended, false, jumped)))
        else
          var carried := noted.(pauseRequest := true);
          Segment([append, Save(carried, jumped)], Some(Live(carried, pc, true, jumped)))
      else Segment([append, Save(noted, jumped)], Some(Live(noted, pc, true, jumped)))
  }

  function StopEvent(text: StopText): Event {
    BareEvent(RunStopped).(stop := text)
  }

  /** The failed run _mark_failed stores. */
  function FailedBy(run: Run, e: Event): Run {
    Noted(run, e).(status := Failed, stop := None, pendingCalls := [], pendingApprovals := [])
  }

  /** An exception leaving the execution: the copy is saved, then marked failed if running. */
  function FailWrites(d: Durable, live: Live, id: nat): seq<Write> {
    var run := live.run;
    if d.snap.status == Canceled then []
    else if run.status == Running then
      var e := Stamp(StopEvent(FailedText), id, |d.journal| + 1);
      [Save(run, live.jumped), Append(e), Save(FailedBy(run, e), Jumped(d, live))]
    else if run.status in {Canceled, Failed} then [Save(run, live.jumped)]
    else [Save(run, live.jumped), Save(run, live.jumped)]
  }

  /** The finally block of _stream_and_store. */
  function FinallyWrites(d: Durable, live: Live): seq<Write> {
    if d.snap.status in {Canceled, Failed} then [] else [Save(live.run, live.jumped)]
  }

  // ------------------------------------------------------------------- executing

  /** Where a resumed execution continues (_resume_agent_events, _resume_checkpoint_events). */
  function Resume(live: Live): Option<Live> {
    var run := live.run;
    if run.status != Paused || !CanResume(run) then None
    else if run.pause.Some? then
      var woken := run.(status := Running, stop := None, pendingCalls := [], pendingApprovals := [],
                        pause := None, pauseRequest := false);
      var calls := CallsOf(run.response);
      var rest := IncompleteCalls(calls, CompletedIds(run.steps));
      if run.response == None then Some(Live(woken, Chatting(run.request.maxToolRounds), false, live.jumped))
      else if rest != [] then Some(Live(woken, Calling(rest, run.remaining), false, live.jumped))
      else if calls != [] then
        var left := if run.remaining - 1 > 0 then run.remaining - 1 else 0;
        Some(Live(woken.(remaining := left), Chatting(left), false, live.jumped))
      else Some(Live(woken, Calling([], run.remaining), false, live.jumped))
    else if run.response == None || run.pendingCalls == [] then None
    else
      Some(Live(run.(status := Running, stop := Some(StopReason.Finished), pendingCalls := [], pendingApprovals := []),
                Calling(run.pendingCalls, run.remaining), false, live.jumped))
  }

  /** What the tool loop assigns before it looks at a call. */
  function Enter(run: Run, left: int): Run {
    run.(remaining := left, stop := Some(StopReason.Finished))
  }

  predicate SameCall(call: ToolCall, raw: ToolCall) {
    call.id == raw.id && call.name == raw.name
  }

  function ToolMessage(id: string, text: string): Message {
    Message(0, ToolRole, None, text, [], Some(id))
  }

  function ResultEvent(call: ToolCall, result: ToolResult): Event {
    BareEvent(ToolCompleted).(message := Some(ToolMessage(result.id, result.text)),
                              call := Some(call), result := Some(result))
  }

  function ErrorEvent(call: ToolCall, error: string): Event {
    BareEvent(ToolFailed).(message := Some(ToolMessage(call.id, error)), call := Some(call), error := Some(error))
  }

  /** Recording a tool result or error: the step, its event, and the next call of the round. */
  function RecordTool(d: Durable, live: Live, e: Event, id: nat, rest: seq<ToolCall>, left: int): Segment
    requires ProgressOf(e).Some?
  {
    var run := live.run;
    var next := if e.kind == ToolFailed && !run.request.recoverToolErrors then Broken(left)
                else if rest == [] then RoundDone(left) else Calling(rest, left);
    Persist(d, live, run.(steps := run.steps + [ProgressOf(e).value.(eventId := Some(id))]), e, id, next)
  }

  function ChatEvent(run: Run, response: Response): Event {
    BareEvent(ChatCompleted).(response := Some(response), message := Some(response.message),
                              remaining := Some(run.remaining))
  }

  function Responded(run: Run, response: Response, id: nat): Run {
    var step := BareStep(ChatStep).(response := Some(response), message := Some(response.message), eventId := Some(id));
    run.(response := Some(response), steps := run.steps + [step])
  }

  function ExecuteSegment(d: Durable, live: Live, id: nat, runId: string, tool: Option<ReplayPolicy>): Segment
    requires live.pc.Executing?
  {
    var Executing(call, rest, left) := live.pc;
    var run := live.run;
    if call.name == None then Segment([], Some(Live(run, InTool(call, rest, left, None), false, live.jumped)))
    else
      match PlanCall(d.ledger, runId, Round(run.steps), call.id, tool)
      case Serve(result) => RecordTool(d, live, ResultEvent(call, result), id, rest, left)
      case ServeError(error) => RecordTool(d, live, ErrorEvent(call, error), id, rest, left)
      case ToolMissing => RecordTool(d, live, ErrorEvent(call, "tool not found"), id, rest, left)
      case Refuse(_) => Segment(FailWrites(d, live, id), None)
      case DispatchNew(a) =>
        Segment([Create(a), Put(a.(status := Started)), Send(SentOf(a))],
                Some(Live(run, InTool(call, rest, left, Some(a.(status := Started))), false, live.jumped)))
      case DispatchScheduled(a) =>
        Segment([Put(a.(status := Started)), Send(SentOf(a))],
                Some(Live(run, InTool(call, rest, left, Some(a.(status := Started))), false, live.jumped)))
  }

  /** The ledger write that closes an attempt, then the rest of the segment. */
  function Close(attempt: Option<Attempt>, outcome: Outcome, rest: Segment): Segment {
    if attempt == None then rest
    else Segment([Put(Concluded(attempt.value, outcome))] + rest.writes, rest.next)
  }

  function FinishRun(run: Run, pc: Pc): Run
    requires pc.Broken? || pc.Calling?
  {
    var entered := Enter(run, pc.left);
    var reason := if pc.Broken? then StopReason.ToolError
                  else if pc.calls != [] then RoundsExhausted else StopReason.Finished;
    var stopped := entered.(stop := Some(reason), steps := run.steps + [BareStep(StopStep)]);
    if pc.Broken? then stopped else stopped.(pendingCalls := [], pendingApprovals := [])
  }

  /** The run its run_stopped event is persisted with. */
  function Stopped(run: Run, id: nat): Run
    requires run.stop.Some?
  {
    run.(status := if run.stop.value == StopReason.Finished then Done else Failed, steps := Touch(run.steps, StopStep, id))
  }

  /** Starting or resuming an execution, and model responses. */
  function OpeningSegment(d: Durable, live: Live, id: nat, action: Action): Segment {
    var run := live.run;
    var idle := Segment([], Some(live));
    match action
    case Begin =>
      if live.pc != Loaded then idle
      else if Resume(live) == None then Segment(FailWrites(d, live, id), None)
      else Segment([], Resume(live))
    case StartRun =>
      if live.pc != Fresh then idle
      else
        var started := run.(steps := run.steps + [BareStep(StartStep).(eventId := Some(id))]);
        Persist(d, live, started, BareEvent(RunStarted), id, Chatting(run.request.maxToolRounds))
    case Delta(text) =>
      if !live.pc.Chatting? then idle
      else if d.snap.status == Canceled then Segment([], None)
      else
        var e := Stamp(BareEvent(ChatDelta), id, |d.journal| + 1);
        Segment([Append(e)], Some(Live(Noted(run, e), live.pc, false, Jumped(d, live))))
    case Respond(response) =>
      if !live.pc.Chatting? then idle
      else Persist(d, live, Responded(run, response, id), ChatEvent(run, response), id,
                   Calling(response.message.calls, live.pc.left))
    case _ => idle
  }

  /** Taking up the first call of the round: approval, rejection or start. */
  function CallSegment(d: Durable, live: Live, id: nat, action: Action): Segment {
    var run := live.run;
    var idle := Segment([], Some(live));
    match action
    case AskApproval(call, approval) =>
      if !CanCall(live.pc, call) then idle
      else Persist(d, live, Enter(run, live.pc.left),
                   BareEvent(ApprovalRequested).(call := Some(call), approval := approval), id, live.pc)
    case DecideApproval(call) =>
      if !CanCall(live.pc, call) then idle
      else Persist(d, live, Enter(run, live.pc.left), BareEvent(ApprovalDecided).(call := Some(call)), id, live.pc)
    case PauseForApproval(call, requested) =>
      if !CanCall(live.pc, call) then idle
      else
        var waiting := run.(status := Paused, stop := None, remaining := live.pc.left,
                            pendingCalls := [call] + live.pc.calls[1..], pendingApprovals := [requested]);
        Persist(d, live, waiting, BareEvent(RunPaused).(call := Some(call), approval := Some(requested)), id, Ended)
    case StartTool(call) =>
      if !CanCall(live.pc, call) then idle
      else
        var entered := Enter(run, live.pc.left);
        Persist(d, live, entered.(steps := Touch(run.steps, ToolStep, id)), BareEvent(ToolStarted).(call := Some(call)), id,
                Executing(call, live.pc.calls[1..], live.pc.left))
    case SkipStart(call) =>
      if !CanCall(live.pc, call) then idle
      else Segment([], Some(Live(Enter(run, live.pc.left), Executing(call, live.pc.calls[1..], live.pc.left), false, live.jumped)))
    case RejectTool(call, error) =>
      if !CanCall(live.pc, call) then idle
      else RecordTool(d, live.(run := Enter(run, live.pc.left)), ErrorEvent(call, error), id, live.pc.calls[1..], live.pc.left)
    case _ => idle
  }

  /** Running the tool of a call, and the end of a round. */
  function ToolSegment(d: Durable, live: Live, id: nat, runId: string, action: Action): Segment {
    var run := live.run;
    var idle := Segment([], Some(live));
    match action
    case Execute(tool) =>
      if !live.pc.Executing? then idle else ExecuteSegment(d, live, id, runId, tool)
    case ToolReturns(result) =>
      if !live.pc.InTool? then idle
      else Close(live.pc.attempt, Returned(result),
                 RecordTool(d, live, ResultEvent(live.pc.call, result), id, live.pc.rest, live.pc.left))
    case ToolRaises(error) =>
      if !live.pc.InTool? then idle
      else Close(live.pc.attempt, Raised(error),
                 RecordTool(d, live, ErrorEvent(live.pc.call, error), id, live.pc.rest, live.pc.left))
    case EndRound =>
      if !live.pc.RoundDone? then idle
      else Segment([], Some(Live(run.(remaining := live.pc.left - 1), Chatting(live.pc.left - 1), false, live.jumped)))
    case _ => idle
  }

  /** Stopping, late pauses, failures and interruptions. */
  function ClosingSegment(d: Durable, live: Live, id: nat, action: Action): Segment {
    var run := live.run;
    var idle := Segment([], Some(live));
    match action
    case Finish =>
      if live.pc.Broken? || (live.pc.Calling? && (live.pc.calls == [] || live.pc.left <= 0))
      then Segment([], Some(Live(FinishRun(run, live.pc), Stopping, false, live.jumped)))
      else idle
    case WriteMemory =>
      if live.pc != Stopping then idle
      else
        var wrote := run.(steps := run.steps + [BareStep(MemoryStep).(eventId := Some(id))]);
        Persist(d, live, wrote, BareEvent(MemoryWritten), id, Stopping)
    case StopRun =>
      if live.pc != Stopping || run.stop == None then idle
      else
        Persist(d, live, Stopped(run, id), StopEvent(StopBy(run.stop.value)), id, Ended)
    case LatePause =>
      if live.yielded && run.trace != [] && IsCheckpoint(run.trace[|run.trace| - 1].kind)
         && d.snap.status == Running && d.snap.pauseRequest && run.status == Running then
        var p := Stamp(BareEvent(RunPaused), id, |d.journal| + 1);
        var paused := PausedAt(run, run.trace[|run.trace| - 1].kind, p);
        Segment([Append(p), Save(paused, Jumped(d, live))], Some(Live(paused, Ended, false, Jumped(d, live))))
      else idle
    case Raise => Segment(FailWrites(d, live, id), None)
    case Interrupt => Segment(FinallyWrites(d, live), None)
    case Return => if live.pc != Ended then idle else Segment(FinallyWrites(d, live), None)
    case _ => idle
  }

  /** One operation of an execution; an action that does not fit where it stands does nothing. */
  function ActSegment(d: Durable, live: Live, id: nat, runId: string, action: Action): Segment {
    if action.Begin? || action.StartRun? || action.Delta? || action.Respond? then OpeningSegment(d, live, id, action)
    else if action.AskApproval? || action.DecideApproval? || action.PauseForApproval? || action.StartTool?
            || action.SkipStart? || action.RejectTool? then CallSegment(d, live, id, action)
    else if action.Execute? || action.ToolReturns? || action.ToolRaises? || action.EndRound?
    then ToolSegment(d, live, id, runId, action)
    else ClosingSegment(d, live, id, action)
  }

  /** A call may be taken up while calls and rounds are left. */
  predicate CanCall(pc: Pc, call: ToolCall) {
    pc.Calling? && pc.left > 0 && pc.calls != [] && SameCall(call, pc.calls[0])
  }

  // ---------------------------------------------------------- control and recovery

  /** The positions a control call passes over: it works on the stored snapshot as it stands. */
  function Passed(d: Durable): set<nat> {
    Range(d.snap.applied, |d.journal|)
  }

  function CanceledBy(run: Run, e: Event): Run {
    Noted(run, e).(status := Canceled, stop := None, pendingCalls := [], pendingApprovals := [], pause := None)
  }

  function CancelWrites(d: Durable, id: nat): seq<Write> {
    if d.snap.status in {Canceled, Done, Failed} then []
    else
      var e := Stamp(StopEvent(CanceledText), id, |d.journal| + 1);
      [Append(e), Save(CanceledBy(d.snap, e), Passed(d))]
  }

  predicate NeedsOperator(a: Attempt) {
    a.status == Unknown && a.policy == NonReplayable && a.resolution == None
  }

  predicate AllResolved(ledger: seq<Attempt>) {
    forall a :: a in ledger ==> !NeedsOperator(LatestOfRun(ledger, a.id).value)
  }

  function FindAttempt(ledger: seq<Attempt>, id: string, number: nat): (found: Option<Attempt>)
    ensures found.Some? ==> found.value in ledger && found.value.id == id && found.value.number == number
    ensures found == None ==> forall a :: a in ledger ==> a.id != id || a.number != number
  {
    if ledger == [] then None
    else if ledger[0].id == id && ledger[0].number == number then Some(ledger[0])
    else FindAttempt(ledger[1..], id, number)
  }

  function ResolvedAttempt(a: Attempt, confirmed: Option<string>): Attempt {
    match confirmed
    case None => a.(resolution := Some(Retry))
    case Some(text) =>
      a.(resolution := Some(ConfirmCompleted), status := Completed, result := Some(ToolResult(a.id, text)))
  }

  function ResolveWrites(d: Durable, id: nat, call: string, number: nat, confirmed: Option<string>): seq<Write> {
    var found := FindAttempt(d.ledger, call, number);
    if d.snap.status != Paused || found == None || found.value.status != Unknown || found.value.resolution.Some?
    then []
    else
      var a := ResolvedAttempt(found.value, confirmed);
      var resumable := AllResolved(PutAttempt(d.ledger, a));
      var e := Stamp(BareEvent(ExecutionResolved), id, |d.journal| + 1);
      var pause := if d.snap.pause == None then None
                   else Some(d.snap.pause.value.(checkpoint := OperatorResolution, resumable := resumable));
      [Resolve(a), Append(e), Save(Noted(d.snap, e).(pause := pause), Passed(d))]
  }

  /** Every row that is the latest of its call id and still needs the operator, given up. */
  function AbandonPuts(ledger: seq<Attempt>, rows: seq<Attempt>): seq<Write> {
    if rows == [] then []
    else
      var rest := AbandonPuts(ledger, rows[1..]);
      if LatestOfRun(ledger, rows[0].id) == Some(rows[0]) && NeedsOperator(rows[0])
      then [Put(rows[0].(resolution := Some(AbandonAndRetryRun)))] + rest
      else rest
  }

  function AbandonWrites(d: Durable, id: nat): seq<Write> {
    if d.snap.status != Paused || CanResume(d.snap) then []
    else
      var e := Stamp(BareEvent(ExecutionResolved), id, |d.journal| + 1);
      AbandonPuts(d.ledger, d.ledger) + [Append(e), Save(Noted(d.snap, e), Passed(d))]
  }

  function MarkFailedWrites(d: Durable, id: nat): seq<Write> {
    if d.snap.status != Running then []
    else
      var e := Stamp(StopEvent(FailedText), id, |d.journal| + 1);
      [Append(e), Save(FailedBy(d.snap, e), Passed(d))]
  }

  /** _mark_started_executions_unknown. */
  function UnknownPuts(rows: seq<Attempt>): seq<Write> {
    if rows == [] then []
    else if rows[0].status == Started then [Put(rows[0].(status := Unknown))] + UnknownPuts(rows[1..])
    else UnknownPuts(rows[1..])
  }

  /** inspect_agent_run_checkpoint: the restored run, its eligibility and its checkpoint. */
  function Inspect(run: Run, events: seq<Event>, ledger: Option<seq<Attempt>>): (Run, bool, Checkpoint) {
    var (restored, error) := Restore(run, events);
    if error.Some? then (restored, false, IncompleteTrace)
    else if restored.status in {Done, Failed, Canceled} then (restored, false, StoppedRun)
    else if exists s :: s in restored.steps && s.kind in {StopStep, MemoryStep} then
      (restored, false, FinalizationIncomplete)
    else if restored.response == None then
      if exists s :: s in restored.steps && s.kind != StartStep then (restored, false, IncompleteTrace)
      else (restored, true, StartedRun)
    else
      var calls := CallsOf(restored.response);
      var rest := IncompleteCalls(calls, CompletedIds(restored.steps));
      if rest == [] then (restored, true, if calls != [] then ToolRoundCompleted else ChatOnlyCompleted)
      else if restored.pendingApprovals != [] && (forall c :: c in rest ==> c.id in restored.pendingApprovals) then
        (restored, true, ApprovalPending)
      else if ledger.Some? && ReplayReady(ledger.value, Round(restored.steps), rest) then
        (restored, true, ToolReplayReady)
      else (restored, false, ToolExecutionIncomplete)
  }

  /** _mark_interrupted, _recover_interrupted_agent_runs and _pause_running_states. */
  function SuspendWrites(d: Durable, id: nat, cause: PauseCause): seq<Write> {
    if d.snap.status != Running then []
    else
      var puts := UnknownPuts(d.ledger);
      var ledger := ApplyAll(d, puts).ledger;
      var (run, eligible, checkpoint) := Inspect(d.snap, d.journal, Some(ledger));
      if run.status != Running then puts + [Save(run, {})]
      else
        var e := Stamp(BareEvent(RunPaused), id, |d.journal| + 1);
        var paused := Noted(run, e).(status := Paused, stop := None,
                                     pause := Some(Pause(cause, checkpoint, eligible)));
        puts + [Append(e), Save(paused, Range(run.applied, |d.journal|))]
  }

  // ----------------------------------------------------------------------- steps

  function OpWrites(w: World, runId: string, op: Op): seq<Write> {
    match op
    case Load => []
    case RequestPause => if w.d.snap.status == Running then [Save(w.d.snap.(pauseRequest := true), {})] else []
    case Cancel => CancelWrites(w.d, w.nextId)
    case ResolveExecution(call, number, confirmed) => ResolveWrites(w.d, w.nextId, call, number, confirmed)
    case Abandon => AbandonWrites(w.d, w.nextId)
    case MarkFailed => MarkFailedWrites(w.d, w.nextId)
    case Suspend(cause, _) => SuspendWrites(w.d, w.nextId, cause)
    case Act(i, action) =>
      if i < |w.copies| then ActSegment(w.d, w.copies[i], w.nextId, runId, action).writes else []
  }

  function OpCopies(w: World, runId: string, op: Op): seq<Live> {
    match op
    case Load => w.copies + [Live(w.d.snap, Loaded, false, {})]
    case Act(i, action) =>
      if i < |w.copies| then
        match ActSegment(w.d, w.copies[i], w.nextId, runId, action).next
        case None => w.copies[..i] + w.copies[i + 1..]
        case Some(next) => w.copies[i := next]
      else w.copies
    case _ => w.copies
  }

  /** What survives of an operation's writes: all of them, or the prefix a crash let through. */
  function Surviving(ws: seq<Write>, step: Label): seq<Write> {
    if step.cut == None then ws
    else if step.op.Suspend? && step.op.transactional then []
    else if step.cut.value < |ws| then ws[..step.cut.value] else ws
  }

  function Next(w: World, runId: string, step: Label): World {
    World(ApplyAll(w.d, Surviving(OpWrites(w, runId, step.op), step)),
          if step.cut == None then OpCopies(w, runId, step.op) else [],
          w.nextId + 2)
  }

  /** A run of the system: the worlds it passes through, one labelled step apart. */
  ghost predicate IsRun(ws: seq<World>, request: Request, runId: string, steps: seq<Label>) {
    && |ws| == |steps| + 1 && ws[0] == StartWorld(request)
    && forall i {:trigger steps[i]} :: 0 <= i < |steps| ==> ws[i + 1] == Next(ws[i], runId, steps[i])
  }
}
