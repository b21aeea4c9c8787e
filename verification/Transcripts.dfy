/** The chat transcript of the web client (frontend/src/domain/chat.ts): live trace events are
    applied one by one, and a run snapshot is reconciled with whatever they left. */
module Transcripts {
  import opened Wrappers
  import Ledger

  datatype ToolStatus = Pending | Approval | Running | Completed | Failed | Canceled

  datatype Activity = Activity(
    callId: string,
    name: string,
    status: ToolStatus,
    startedAt: Option<string>,
    finishedAt: Option<string>,
    durationMs: Option<real>,
    argumentsText: string,
    resultText: Option<string>,
    errorType: Option<string>,
    notice: Option<string>)

  datatype Call = Call(id: string, name: Option<string>, argumentsText: Option<string>)

  datatype Content = Content(role: string, text: string, calls: seq<Call>)

  datatype Entry = Entry(
    id: string,
    role: string,
    text: string,
    content: Content,
    modelId: Option<string>,
    finishReason: Option<string>,
    run: Option<string>,
    streaming: bool,
    notice: bool,
    activity: Option<Activity>)

  datatype Response = Response(id: Option<string>, modelId: Option<string>, finishReason: Option<string>, message: Content)

  datatype EventKind =
    | ChatCompleted | ChatDelta | ToolStarted | ToolCompleted | ToolFailed | ApprovalRequested | ApprovalDecided | Other

  datatype Event = Event(
    kind: EventKind,
    sequence: Option<nat>,
    response: Option<Response>,
    call: Option<Call>,
    approvalCall: Option<Call>,
    decidedFor: Option<string>,
    approved: bool,
    error: Option<string>,
    errorType: Option<string>,
    resultText: Option<string>,
    delta: string,
    occurredAt: Option<string>,
    durationMs: Option<real>)

  datatype RunStatus = RunRunning | RunPaused | RunFinished | RunFailed | RunCanceled | RunUnknown

  /** A run snapshot: `steps` are the events its steps stand for, `approvals` its pending
      approval requests, `failureText` what the notice of a stopped run says. */
  datatype Snapshot = Snapshot(
    id: string,
    status: RunStatus,
    trace: seq<Event>,
    steps: seq<Event>,
    approvals: seq<Call>,
    failureText: string)

  // --------------------------------------------------------------------- searching

  predicate IsOf(e: Entry, run: string) {
    e.run == Some(run)
  }

  /** One past the last entry that belongs to the run, or 0. */
  function LastOf(entries: seq<Entry>, run: string): (n: nat)
    ensures n <= |entries| && (n > 0 ==> IsOf(entries[n - 1], run))
    ensures forall i :: n <= i < |entries| ==> !IsOf(entries[i], run)
  {
    if entries == [] then 0
    else if IsOf(entries[|entries| - 1], run) then |entries|
    else LastOf(entries[..|entries| - 1], run)
  }

  function FirstOf(entries: seq<Entry>, run: string): (n: nat)
    ensures n <= |entries| && (n < |entries| ==> IsOf(entries[n], run))
    ensures forall i :: 0 <= i < n ==> !IsOf(entries[i], run)
  {
    if entries == [] then 0 else if IsOf(entries[0], run) then 0 else 1 + FirstOf(entries[1..], run)
  }

  function Others(entries: seq<Entry>, run: string): (out: seq<Entry>)
    ensures forall e :: e in out ==> !IsOf(e, run)
  {
    if entries == [] then []
    else (if IsOf(entries[0], run) then [] else [entries[0]]) + Others(entries[1..], run)
  }

  /** One past the last user entry: the start of the current turn. */
  function TurnStart(entries: seq<Entry>): (n: nat)
    ensures n <= |entries|
  {
    if entries == [] then 0
    else if entries[|entries| - 1].role == "user" then |entries|
    else TurnStart(entries[..|entries| - 1])
  }

  predicate IsCallOf(e: Entry, call: string, run: string) {
    IsOf(e, run) && e.activity.Some? && e.activity.value.callId == call
  }

  /** One past the last entry for the call from `start` on, or `start`. */
  function LastCall(entries: seq<Entry>, start: nat, call: string, run: string): (n: nat)
    requires start <= |entries|
    ensures start <= n <= |entries| && (n > start ==> IsCallOf(entries[n - 1], call, run))
    decreases |entries|
  {
    if |entries| == start then start
    else if IsCallOf(entries[|entries| - 1], call, run) then |entries|
    else LastCall(entries[..|entries| - 1], start, call, run)
  }

  // ---------------------------------------------------------------------- updating

  function OrElse<T>(a: Option<T>, b: Option<T>): Option<T> {
    if a.Some? then a else b
  }

  /** What a tool event says about its call. */
  datatype Update = Update(
    status: ToolStatus,
    resultText: Option<string>,
    preserve: bool,
    errorType: Option<string>,
    startedAt: Option<string>,
    finishedAt: Option<string>,
    durationMs: Option<real>)

  function NextActivity(call: Call, u: Update, previous: Option<Activity>): Activity {
    var started := if previous.Some? then previous.value.startedAt else None;
    var finished := if previous.Some? then previous.value.finishedAt else None;
    var duration := if previous.Some? then previous.value.durationMs else None;
    Activity(call.id,
             if call.name.Some? then call.name.value else if previous.Some? then previous.value.name else "tool call",
             u.status,
             OrElse(u.startedAt, started),
             if u.status == Running then None else OrElse(u.finishedAt, finished),
             if u.status == Running then None else OrElse(u.durationMs, duration),
             if call.argumentsText.Some? then call.argumentsText.value
             else if previous.Some? then previous.value.argumentsText else "{}",
             OrElse(u.resultText, if previous.Some? then previous.value.resultText else None),
             u.errorType,
             None)
  }

  /** The entry a tool event leaves for its call. */
  function ToolEntry(call: Call, run: string, u: Update, previous: Option<Entry>, size: nat): Entry {
    var activity := NextActivity(call, u, if previous.Some? then previous.value.activity else None);
    var id := if previous.Some? then previous.value.id else "tool-" + run + "-" + Ledger.Digits(size) + "-" + call.id;
    Entry(id, "tool", "", Content("tool", "", []), None, None, Some(run), false, false, Some(activity))
  }

  /** upsertTool. */
  function UpsertTool(entries: seq<Entry>, call: Call, run: string, u: Update): seq<Entry> {
    var start := TurnStart(entries);
    var n := LastCall(entries, start, call.id, run);
    if n == start then entries + [ToolEntry(call, run, u, None, |entries|)]
    else if u.preserve then entries
    else entries[n - 1 := ToolEntry(call, run, u, Some(entries[n - 1]), |entries|)]
  }

  function UpsertCalls(entries: seq<Entry>, calls: seq<Call>, run: string): seq<Entry>
    decreases |calls|
  {
    if calls == [] then entries
    else UpsertCalls(UpsertTool(entries, calls[0], run, Update(Pending, None, true, None, None, None, None)), calls[1..], run)
  }

  function Answer(entries: seq<Entry>, r: Response, run: string): Entry {
    Entry(if r.id.Some? then run + "-response-" + r.id.value else run + "-assistant-" + Ledger.Digits(|entries| + 1),
          if r.message.role == "" then "assistant" else r.message.role,
          if r.message.text == "" then "[no text]" else r.message.text,
          r.message, r.modelId, r.finishReason, Some(run), false, false, None)
  }

  /** The last text entry of the run. */
  function LastText(entries: seq<Entry>, run: string): Option<Entry> {
    if entries == [] then None
    else
      var last := entries[|entries| - 1];
      if IsOf(last, run) && last.activity == None && !last.notice then Some(last)
      else LastText(entries[..|entries| - 1], run)
  }

  predicate HasCall(entries: seq<Entry>, call: string, run: string) {
    exists e :: e in entries && IsCallOf(e, call, run)
  }

  /** The response is in the transcript already. */
  predicate AlreadyCompleted(entries: seq<Entry>, r: Response, run: string) {
    var previous := LastText(entries, run);
    var last := LastOf(entries, run);
    previous.Some? && !previous.value.streaming &&
    ((r.id.Some? && previous.value.id == Answer(entries, r, run).id)
     || (previous.value.text == r.message.text
         && ((last > 0 && entries[last - 1] == previous.value)
             || (r.message.calls != [] && forall call :: call in r.message.calls ==> HasCall(entries, call.id, run)))))
  }

  /** completeStreamedResponse. */
  function CompleteResponse(entries: seq<Entry>, r: Response, run: string): seq<Entry> {
    var end := LastOf(entries, run);
    var trailing := if end == 0 then [] else entries[end..];
    var own := if end == 0 then entries else entries[..end];
    var entry := Answer(own, r, run);
    var result :=
      if end > 0 && own[end - 1].streaming && own[end - 1].activity == None then
        if r.message.text != "" then own[..end - 1] + [entry.(id := own[end - 1].id)] else own[..end - 1]
      else if r.message.text != "" && !AlreadyCompleted(own, r, run) then own + [entry]
      else own;
    UpsertCalls(result, r.message.calls, run) + trailing
  }

  function StatusOf(e: Event): ToolStatus {
    match e.kind
    case ToolStarted => Running
    case ToolCompleted => Completed
    case ToolFailed => Failed
    case ApprovalRequested => Approval
    case _ => if e.approved then Pending else Failed
  }

  predicate IsToolEvent(kind: EventKind) {
    kind in {ToolStarted, ToolCompleted, ToolFailed, ApprovalRequested, ApprovalDecided}
  }

  function UpdateOf(e: Event): Update {
    var status := StatusOf(e);
    Update(status,
           if e.error.Some? then e.error
           else if e.resultText.Some? then e.resultText
           else if status == Failed then Some(if e.kind == ToolFailed then "tool failed" else "call not approved")
           else None,
           false, e.errorType,
           if e.kind == ToolStarted then e.occurredAt else None,
           if e.kind == ToolCompleted || e.kind == ToolFailed then e.occurredAt else None,
           e.durationMs)
  }

  function ApplyDelta(entries: seq<Entry>, delta: string, run: string): seq<Entry> {
    var n := |entries|;
    var continuing := n > 0 && IsOf(entries[n - 1], run) && entries[n - 1].streaming && entries[n - 1].activity == None;
    var text := (if continuing then entries[n - 1].text else "") + delta;
    var entry := Entry(if continuing then entries[n - 1].id else "stream-" + run + "-" + Ledger.Digits(n),
                       "assistant", text, Content("assistant", text, []), None, None, Some(run), true, false, None);
    if continuing then entries[..n - 1] + [entry] else entries + [entry]
  }

  /** applyChatTrace. */
  function ApplyTrace(entries: seq<Entry>, e: Event, run: string): seq<Entry> {
    var call := OrElse(e.call, e.approvalCall);
    if e.kind == ChatCompleted && e.response.Some? then CompleteResponse(entries, e.response.value, run)
    else if call.Some? && IsToolEvent(e.kind) then UpsertTool(entries, call.value, run, UpdateOf(e))
    else if e.kind == ChatDelta && e.delta != "" then ApplyDelta(entries, e.delta, run)
    else entries
  }

  function ApplyAll(entries: seq<Entry>, events: seq<Event>, run: string): seq<Entry>
    decreases |events|
  {
    if events == [] then entries else ApplyAll(ApplyTrace(entries, events[0], run), events[1..], run)
  }

  // ------------------------------------------------------------------ reconciling

  /** The events of a snapshot, each sequence number once. */
  function Unseen(events: seq<Event>, seen: set<nat>): seq<Event>
    decreases |events|
  {
    if events == [] then []
    else if events[0].sequence.Some? && events[0].sequence.value in seen then Unseen(events[1..], seen)
    else [events[0]] + Unseen(events[1..], if events[0].sequence.Some? then seen + {events[0].sequence.value} else seen)
  }

  function EventsOf(run: Snapshot): seq<Event> {
    if run.trace != [] then run.trace else run.steps
  }

  /** What the transcript records for a call of the run, looked for from the end. */
  function Recorded(entries: seq<Entry>, call: string, run: string): Option<Activity> {
    if entries == [] then None
    else if IsCallOf(entries[|entries| - 1], call, run) then entries[|entries| - 1].activity
    else Recorded(entries[..|entries| - 1], call, run)
  }

  predicate IsDecided(events: seq<Event>, call: string) {
    exists e :: e in events && e.kind == ApprovalDecided
                && (if e.call.Some? then e.call.value.id == call else e.decidedFor == Some(call))
  }

  /** A pending approval that the transcript does not show yet. */
  predicate ShowsApproval(entries: seq<Entry>, events: seq<Event>, call: string, run: string) {
    var recorded := Recorded(entries, call, run);
    recorded == None
    || (recorded.value.status !in {Running, Completed, Failed, Canceled}
        && !(recorded.value.status == Pending && IsDecided(events, call)))
  }

  function BareEvent(kind: EventKind): Event {
    Event(kind, None, None, None, None, None, false, None, None, None, "", None, None)
  }

  function AddApprovals(entries: seq<Entry>, events: seq<Event>, approvals: seq<Call>, run: string): seq<Entry>
    decreases |approvals|
  {
    if approvals == [] then entries
    else
      var next := if ShowsApproval(entries, events, approvals[0].id, run)
                  then ApplyTrace(entries, BareEvent(ApprovalRequested).(approvalCall := Some(approvals[0])), run)
                  else entries;
      AddApprovals(next, events, approvals[1..], run)
  }

  predicate StillAwaited(a: Activity, run: Snapshot) {
    a.status == Approval && run.status == RunPaused && exists call :: call in run.approvals && call.id == a.callId
  }

  /** An unfinished call of a run that no longer runs. */
  function Settled(a: Activity, run: Snapshot): Activity {
    if a.status in {Completed, Failed, Canceled} || StillAwaited(a, run) then a
    else
      var dropped := run.status == RunCanceled && a.status == Approval;
      a.(status := if dropped then Canceled else Pending,
         notice := Some(if run.status == RunPaused then "paused"
                        else if dropped then "approval canceled" else "stopped, result unknown"))
  }

  function SettledEntry(e: Entry, run: Snapshot): Entry {
    if !IsOf(e, run.id) then e
    else e.(streaming := false, activity := if e.activity.Some? then Some(Settled(e.activity.value, run)) else None)
  }

  function SettleAll(entries: seq<Entry>, run: Snapshot): (out: seq<Entry>)
    ensures |out| == |entries|
    ensures forall i :: 0 <= i < |entries| ==> out[i] == SettledEntry(entries[i], run)
  {
    if entries == [] then [] else [SettledEntry(entries[0], run)] + SettleAll(entries[1..], run)
  }

  function DropNotices(entries: seq<Entry>, run: string): seq<Entry> {
    if entries == [] then []
    else (if IsOf(entries[0], run) && entries[0].notice then [] else [entries[0]]) + DropNotices(entries[1..], run)
  }

  function NoticeOf(run: Snapshot): seq<Entry> {
    if run.status == RunCanceled || run.status == RunFailed then
      var text := if run.status == RunCanceled then "request canceled" else "run failed: " + run.failureText;
      [Entry(run.id + "-status", "system", text, Content("system", text, []), None, None, Some(run.id), false, true, None)]
    else []
  }

  /** What is shown for the run after the entries before it. */
  function Finish(result: seq<Entry>, run: Snapshot): seq<Entry> {
    var added := AddApprovals(result, EventsOf(run), run.approvals, run.id);
    var settled := if run.status == RunRunning || run.status == RunUnknown then added else SettleAll(added, run);
    DropNotices(settled, run.id) + NoticeOf(run)
  }

  /** reconcileRunTranscript. */
  function Reconciled(entries: seq<Entry>, run: Snapshot): seq<Entry> {
    if EventsOf(run) == [] then
      var n := LastOf(entries, run.id);
      if n == 0 then Finish(entries, run) else Finish(entries[..n], run) + entries[n..]
    else
      var n := FirstOf(entries, run.id);
      Finish(ApplyAll(entries[..n], Unseen(EventsOf(run), {}), run.id), run) + Others(entries[n..], run.id)
  }

  // ------------------------------------------------------- a run owns its own entries

  predicate AllOf(entries: seq<Entry>, run: string) {
    forall e :: e in entries ==> IsOf(e, run)
  }

  predicate NoneOf(entries: seq<Entry>, run: string) {
    forall e :: e in entries ==> !IsOf(e, run)
  }

  /** The entries are `base`, untouched, and after it entries of the run. */
  ghost predicate Extends(base: seq<Entry>, entries: seq<Entry>, run: string) {
    base <= entries && AllOf(entries[|base|..], run)
  }

  lemma OwnFrom(base: seq<Entry>, entries: seq<Entry>, run: string, i: nat)
    requires Extends(base, entries, run) && i < |entries|
    ensures i >= |base| ==> IsOf(entries[i], run)
    ensures NoneOf(base, run) && IsOf(entries[i], run) ==> i >= |base|
  {
    if i >= |base| {
      assert entries[i] == entries[|base|..][i - |base|];
    } else {
      assert base[i] in base && base[i] == entries[i];
    }
  }

  lemma ExtendsPush(base: seq<Entry>, entries: seq<Entry>, entry: Entry, run: string)
    requires Extends(base, entries, run) && IsOf(entry, run)
    ensures Extends(base, entries + [entry], run)
  {
    assert (entries + [entry])[|base|..] == entries[|base|..] + [entry];
  }

  lemma ExtendsPut(base: seq<Entry>, entries: seq<Entry>, i: nat, entry: Entry, run: string)
    requires Extends(base, entries, run) && |base| <= i < |entries| && IsOf(entry, run)
    ensures Extends(base, entries[i := entry], run)
  {
    assert entries[i := entry][|base|..] == entries[|base|..][i - |base| := entry];
  }

  lemma ExtendsCut(base: seq<Entry>, entries: seq<Entry>, n: nat, run: string)
    requires Extends(base, entries, run) && |base| <= n <= |entries|
    ensures Extends(base, entries[..n], run)
  {
    assert entries[..n][|base|..] == entries[|base|..][..n - |base|];
  }

  lemma ExtendsUpsert(base: seq<Entry>, entries: seq<Entry>, call: Call, run: string, u: Update)
    requires Extends(base, entries, run) && NoneOf(base, run)
    ensures Extends(base, UpsertTool(entries, call, run, u), run)
  {
    hide Extends, NoneOf, NextActivity;
    var n := LastCall(entries, TurnStart(entries), call.id, run);
    if n == TurnStart(entries) {
      ExtendsPush(base, entries, ToolEntry(call, run, u, None, |entries|), run);
    } else {
      OwnFrom(base, entries, run, n - 1);
      ExtendsPut(base, entries, n - 1, ToolEntry(call, run, u, Some(entries[n - 1]), |entries|), run);
    }
  }

  lemma {:induction false} ExtendsCalls(base: seq<Entry>, entries: seq<Entry>, calls: seq<Call>, run: string)
    requires Extends(base, entries, run) && NoneOf(base, run)
    ensures Extends(base, UpsertCalls(entries, calls, run), run)
    decreases |calls|
  {
    hide Extends, NoneOf, UpsertTool;
    if calls != [] {
      var u := Update(Pending, None, true, None, None, None, None);
      ExtendsUpsert(base, entries, calls[0], run, u);
      ExtendsCalls(base, UpsertTool(entries, calls[0], run, u), calls[1..], run);
    }
  }

  /** Where the run's last entry stands when nothing follows its entries. */
  lemma LastOfExtends(base: seq<Entry>, entries: seq<Entry>, run: string)
    requires Extends(base, entries, run) && NoneOf(base, run)
    ensures LastOf(entries, run) == if |entries| > |base| then |entries| else 0
  {
    ExtendsSize(base, entries, run);
    if |entries| > |base| {
      OwnFrom(base, entries, run, |entries| - 1);
    } else {
      forall k | 0 <= k < |entries| ensures !IsOf(entries[k], run) {
        assert entries[k] == base[k] && base[k] in base;
      }
    }
  }

  lemma ExtendsSize(base: seq<Entry>, entries: seq<Entry>, run: string)
    requires Extends(base, entries, run)
    ensures |base| <= |entries| && entries[..|base|] == base
  {
  }

  lemma ExtendsResponse(base: seq<Entry>, entries: seq<Entry>, r: Response, run: string)
    requires Extends(base, entries, run) && NoneOf(base, run)
    ensures Extends(base, CompleteResponse(entries, r, run), run)
  {
    hide Extends, NoneOf, AlreadyCompleted, UpsertCalls;
    LastOfExtends(base, entries, run);
    ExtendsSize(base, entries, run);
    var end := LastOf(entries, run);
    assert entries[..|entries|] == entries && entries[|entries|..] == [];
    if end > 0 { ExtendsCut(base, entries, end - 1, run); }
    var entry := Answer(entries, r, run);
    ExtendsPush(base, entries, entry, run);
    if end > 0 { ExtendsPush(base, entries[..end - 1], entry.(id := entries[end - 1].id), run); }
    var result :=
      if end > 0 && entries[end - 1].streaming && entries[end - 1].activity == None then
        if r.message.text != "" then entries[..end - 1] + [entry.(id := entries[end - 1].id)] else entries[..end - 1]
      else if r.message.text != "" && !AlreadyCompleted(entries, r, run) then entries + [entry]
      else entries;
    ExtendsCalls(base, result, r.message.calls, run);
    assert UpsertCalls(result, r.message.calls, run) + [] == UpsertCalls(result, r.message.calls, run);
  }

  lemma ExtendsDelta(base: seq<Entry>, entries: seq<Entry>, delta: string, run: string)
    requires Extends(base, entries, run) && NoneOf(base, run)
    ensures Extends(base, ApplyDelta(entries, delta, run), run)
  {
    hide Extends, NoneOf;
    var n := |entries|;
    ExtendsSize(base, entries, run);
    if n > 0 && IsOf(entries[n - 1], run) {
      OwnFrom(base, entries, run, n - 1);
      ExtendsCut(base, entries, n - 1, run);
    }
    var continuing := n > 0 && IsOf(entries[n - 1], run) && entries[n - 1].streaming && entries[n - 1].activity == None;
    var text := (if continuing then entries[n - 1].text else "") + delta;
    var entry := Entry(if continuing then entries[n - 1].id else "stream-" + run + "-" + Ledger.Digits(n),
                       "assistant", text, Content("assistant", text, []), None, None, Some(run), true, false, None);
    ExtendsPush(base, if continuing then entries[..n - 1] else entries, entry, run);
  }

  lemma ExtendsTrace(base: seq<Entry>, entries: seq<Entry>, e: Event, run: string)
    requires Extends(base, entries, run) && NoneOf(base, run)
    ensures Extends(base, ApplyTrace(entries, e, run), run)
  {
    hide Extends, NoneOf, CompleteResponse, UpsertTool, ApplyDelta, UpdateOf;
    var call := OrElse(e.call, e.approvalCall);
    if e.response.Some? { ExtendsResponse(base, entries, e.response.value, run); }
    if call.Some? { ExtendsUpsert(base, entries, call.value, run, UpdateOf(e)); }
    ExtendsDelta(base, entries, e.delta, run);
  }

  /** Live events, whichever arrive and in whatever order, only ever touch the run's own entries
      and keep them together after everything else. */
  lemma {:induction false} ExtendsAll(base: seq<Entry>, entries: seq<Entry>, events: seq<Event>, run: string)
    requires Extends(base, entries, run) && NoneOf(base, run)
    ensures Extends(base, ApplyAll(entries, events, run), run)
    decreases |events|
  {
    hide Extends, NoneOf, ApplyTrace;
    if events != [] {
      ExtendsTrace(base, entries, events[0], run);
      ExtendsAll(base, ApplyTrace(entries, events[0], run), events[1..], run);
    }
  }

  lemma {:induction false} ExtendsApprovals(base: seq<Entry>, entries: seq<Entry>, events: seq<Event>, approvals: seq<Call>, run: string)
    requires Extends(base, entries, run) && NoneOf(base, run)
    ensures Extends(base, AddApprovals(entries, events, approvals, run), run)
    decreases |approvals|
  {
    hide Extends, NoneOf, ApplyTrace, ShowsApproval;
    if approvals != [] {
      var e := BareEvent(ApprovalRequested).(approvalCall := Some(approvals[0]));
      ExtendsTrace(base, entries, e, run);
      var next := if ShowsApproval(entries, events, approvals[0].id, run) then ApplyTrace(entries, e, run) else entries;
      ExtendsApprovals(base, next, events, approvals[1..], run);
    }
  }

  lemma ExtendsSettle(base: seq<Entry>, entries: seq<Entry>, run: Snapshot)
    requires Extends(base, entries, run.id) && NoneOf(base, run.id)
    ensures Extends(base, SettleAll(entries, run), run.id)
  {
    hide Settled;
    var out := SettleAll(entries, run);
    forall i | 0 <= i < |base| ensures out[i] == base[i] {
      assert entries[i] == base[i] && base[i] in base;
    }
    forall e | e in out[|base|..] ensures IsOf(e, run.id) {
      var i :| 0 <= i < |out| - |base| && out[|base|..][i] == e;
      assert entries[|base| + i] == entries[|base|..][i];
    }
  }

  lemma {:induction false} ExtendsDrop(base: seq<Entry>, entries: seq<Entry>, run: string)
    requires Extends(base, entries, run) && NoneOf(base, run)
    ensures Extends(base, DropNotices(entries, run), run)
    decreases |entries|
  {
    if base == [] {
      OwnStays(entries, run);
    } else {
      assert entries[0] == base[0] && base[0] in base;
      assert entries[1..][|base| - 1..] == entries[|base|..];
      ExtendsDrop(base[1..], entries[1..], run);
      assert ([entries[0]] + DropNotices(entries[1..], run))[|base|..] == DropNotices(entries[1..], run)[|base| - 1..];
    }
  }

  lemma {:induction false} OwnStays(entries: seq<Entry>, run: string)
    requires AllOf(entries, run)
    ensures AllOf(DropNotices(entries, run), run)
  {
    if entries != [] { OwnStays(entries[1..], run); }
  }

  lemma ExtendsFinish(base: seq<Entry>, entries: seq<Entry>, run: Snapshot)
    requires Extends(base, entries, run.id) && NoneOf(base, run.id)
    ensures Extends(base, Finish(entries, run), run.id)
  {
    hide Extends, NoneOf, AddApprovals, SettleAll, DropNotices;
    var added := AddApprovals(entries, EventsOf(run), run.approvals, run.id);
    ExtendsApprovals(base, entries, EventsOf(run), run.approvals, run.id);
    ExtendsSettle(base, added, run);
    var settled := if run.status == RunRunning || run.status == RunUnknown then added else SettleAll(added, run);
    ExtendsDrop(base, settled, run.id);
    var dropped := DropNotices(settled, run.id);
    if NoticeOf(run) == [] {
      assert dropped + [] == dropped;
    } else {
      ExtendsPush(base, dropped, NoticeOf(run)[0], run.id);
      assert NoticeOf(run) == [NoticeOf(run)[0]];
    }
  }

  // ------------------------------------------------------------------ main results

  lemma FirstOfExtends(base: seq<Entry>, entries: seq<Entry>, run: string)
    requires Extends(base, entries, run) && NoneOf(base, run)
    ensures FirstOf(entries, run) == |base| && entries[..|base|] == base
    ensures Others(entries[|base|..], run) == []
  {
    ExtendsSize(base, entries, run);
    forall k | 0 <= k < |base| ensures !IsOf(entries[k], run) {
      assert entries[k] == base[k] && base[k] in base;
    }
    if |entries| > |base| { OwnFrom(base, entries, run, |base|); }
    NoOthers(entries[|base|..], run);
  }

  lemma {:induction false} NoOthers(entries: seq<Entry>, run: string)
    requires AllOf(entries, run)
    ensures Others(entries, run) == []
  {
    if entries != [] { NoOthers(entries[1..], run); }
  }

  /** Reconciling anything that only adds the run's entries to a base gives what reconciling the
      base gives. */
  lemma ReconciledFromBase(base: seq<Entry>, entries: seq<Entry>, run: Snapshot)
    requires Extends(base, entries, run.id) && NoneOf(base, run.id) && EventsOf(run) != []
    ensures Reconciled(entries, run) == Finish(ApplyAll(base, Unseen(EventsOf(run), {}), run.id), run)
    ensures Extends(base, Reconciled(entries, run), run.id)
  {
    hide Extends, NoneOf, Finish, ApplyAll, Others;
    FirstOfExtends(base, entries, run.id);
    BaseExtends(base, run.id);
    var applied := ApplyAll(base, Unseen(EventsOf(run), {}), run.id);
    ExtendsAll(base, base, Unseen(EventsOf(run), {}), run.id);
    ExtendsFinish(base, applied, run);
    assert Finish(applied, run) + [] == Finish(applied, run);
  }

  lemma BaseExtends(base: seq<Entry>, run: string)
    ensures Extends(base, base, run)
  {
  }

  /** Convergence: whatever live events reached the client, lost, doubled or out of order,
      reconciling with the run's snapshot gives exactly what reconciling the untouched
      transcript gives; and reconciling again changes nothing. */
  lemma TranscriptConverges(base: seq<Entry>, live: seq<Event>, run: Snapshot)
    requires NoneOf(base, run.id) && run.trace != []
    ensures Reconciled(ApplyAll(base, live, run.id), run) == Reconciled(base, run)
    ensures Reconciled(Reconciled(base, run), run) == Reconciled(base, run)
  {
    hide Extends, NoneOf, Finish, ApplyAll, Reconciled;
    BaseExtends(base, run.id);
    ExtendsAll(base, base, live, run.id);
    ReconciledFromBase(base, ApplyAll(base, live, run.id), run);
    ReconciledFromBase(base, base, run);
    ReconciledFromBase(base, Reconciled(base, run), run);
  }

  lemma {:induction false} OthersConcat(a: seq<Entry>, b: seq<Entry>, run: string)
    ensures Others(a + b, run) == Others(a, run) + Others(b, run)
    decreases |a|
  {
    if a == [] {
      assert a + b == b;
    } else {
      OthersConcat(a[1..], b, run);
      assert (a + b)[1..] == a[1..] + b && (a + b)[0] == a[0];
    }
  }

  lemma {:induction false} OthersOfOthers(entries: seq<Entry>, run: string)
    requires NoneOf(entries, run)
    ensures Others(entries, run) == entries
  {
    if entries != [] { OthersOfOthers(entries[1..], run); }
  }

  // --------------------------------------------------------- runs that show nothing

  /** What a transcript shows of a run: nothing, only a text still streaming, or something that
      stays. */
  datatype Shown = Nothing | Partial | Firm

  /** What follows the base. */
  function Own(base: seq<Entry>, entries: seq<Entry>): seq<Entry> {
    if |base| <= |entries| then entries[|base|..] else []
  }

  predicate IsPartial(e: Entry) {
    e.streaming && e.activity == None
  }

  predicate HasFirm(own: seq<Entry>) {
    exists e :: e in own && !IsPartial(e)
  }

  predicate Shows(own: seq<Entry>, k: Shown) {
    && (forall e :: e in own ==> !e.notice)
    && match k
       case Nothing => own == []
       case Partial => |own| == 1 && IsPartial(own[0])
       case Firm => HasFirm(own)
  }

  /** What is shown after one more event; it does not depend on the rest of the transcript. */
  function NextShown(k: Shown, e: Event): Shown {
    var call := OrElse(e.call, e.approvalCall);
    if e.kind == ChatCompleted && e.response.Some? then
      if e.response.value.message.text != "" || e.response.value.message.calls != [] then Firm
      else if k == Partial then Nothing else k
    else if call.Some? && IsToolEvent(e.kind) then Firm
    else if e.kind == ChatDelta && e.delta != "" && k == Nothing then Partial
    else k
  }

  function ShownAfter(k: Shown, events: seq<Event>): Shown
    decreases |events|
  {
    if events == [] then k else ShownAfter(NextShown(k, events[0]), events[1..])
  }

  lemma FirmPush(own: seq<Entry>, e: Entry)
    ensures HasFirm(own) || !IsPartial(e) ==> HasFirm(own + [e])
  {
    if HasFirm(own) {
      var f :| f in own && !IsPartial(f);
      assert f in own + [e];
    }
    assert e in own + [e];
  }

  lemma FirmCut(own: seq<Entry>)
    requires own != [] && HasFirm(own) && IsPartial(own[|own| - 1])
    ensures HasFirm(own[..|own| - 1])
  {
    var f :| f in own && !IsPartial(f);
    var i :| 0 <= i < |own| && own[i] == f;
    assert own[..|own| - 1][i] == f;
  }

  lemma FirmPut(own: seq<Entry>, i: nat, e: Entry)
    requires i < |own| && !IsPartial(e)
    ensures HasFirm(own[i := e])
  {
    assert own[i := e][i] == e;
  }

  /** Pushing an entry that is no notice. */
  lemma PushShows(base: seq<Entry>, entries: seq<Entry>, e: Entry, k: Shown)
    requires |base| <= |entries| && Shows(Own(base, entries), k) && !e.notice
    ensures !IsPartial(e) || k == Firm ==> Shows(Own(base, entries + [e]), Firm)
    ensures IsPartial(e) && k == Nothing ==> Shows(Own(base, entries + [e]), Partial)
  {
    hide IsPartial, HasFirm;
    assert Own(base, entries + [e]) == Own(base, entries) + [e];
    FirmPush(Own(base, entries), e);
    assert k == Nothing ==> [] + [e] == [e];
  }

  lemma PutShows(base: seq<Entry>, entries: seq<Entry>, i: nat, e: Entry, k: Shown)
    requires |base| <= i < |entries| && Shows(Own(base, entries), k) && !e.notice && !IsPartial(e)
    ensures Shows(Own(base, entries[i := e]), Firm)
  {
    hide IsPartial;
    assert Own(base, entries[i := e]) == Own(base, entries)[i - |base| := e];
    FirmPut(Own(base, entries), i - |base|, e);
  }

  lemma NotANotice(base: seq<Entry>, entries: seq<Entry>, i: nat, k: Shown)
    requires |base| <= i < |entries| && Shows(Own(base, entries), k)
    ensures !entries[i].notice
  {
    assert Own(base, entries)[i - |base|] == entries[i];
  }

  /** A tool entry stays. */
  lemma UpsertShows(base: seq<Entry>, entries: seq<Entry>, call: Call, run: string, u: Update, k: Shown)
    requires Extends(base, entries, run) && NoneOf(base, run) && Shows(Own(base, entries), k)
    ensures Shows(Own(base, UpsertTool(entries, call, run, u)), Firm)
  {
    hide NextActivity, Extends, NoneOf, Own, HasFirm;
    ExtendsSize(base, entries, run);
    var n := LastCall(entries, TurnStart(entries), call.id, run);
    if n == TurnStart(entries) {
      PushShows(base, entries, ToolEntry(call, run, u, None, |entries|), k);
    } else {
      OwnFrom(base, entries, run, n - 1);
      PutShows(base, entries, n - 1, ToolEntry(call, run, u, Some(entries[n - 1]), |entries|), k);
      NotANotice(base, entries, n - 1, k);
      PutShows(base, entries, n - 1, entries[n - 1], k);
      assert entries[n - 1 := entries[n - 1]] == entries;
    }
  }

  lemma {:induction false} CallsShow(base: seq<Entry>, entries: seq<Entry>, calls: seq<Call>, run: string, k: Shown)
    requires Extends(base, entries, run) && NoneOf(base, run) && Shows(Own(base, entries), k)
    ensures var after := UpsertCalls(entries, calls, run);
            Shows(Own(base, after), if calls == [] then k else Firm)
    decreases |calls|
  {
    hide Extends, NoneOf, UpsertTool, Shows;
    if calls != [] {
      var u := Update(Pending, None, true, None, None, None, None);
      UpsertShows(base, entries, calls[0], run, u, k);
      ExtendsUpsert(base, entries, calls[0], run, u);
      CallsShow(base, UpsertTool(entries, calls[0], run, u), calls[1..], run, Firm);
    }
  }

  lemma {:induction false} NoTextOf(entries: seq<Entry>, run: string)
    requires NoneOf(entries, run)
    ensures LastText(entries, run) == None
  {
    if entries != [] {
      assert entries[|entries| - 1] in entries;
      NoTextOf(entries[..|entries| - 1], run);
    }
  }

  /** Taking away a last text that still streams. */
  lemma CutShows(base: seq<Entry>, entries: seq<Entry>, k: Shown)
    requires |base| < |entries| && Shows(Own(base, entries), k) && IsPartial(entries[|entries| - 1])
    ensures k != Nothing && Shows(Own(base, entries[..|entries| - 1]), if k == Partial then Nothing else k)
  {
    hide IsPartial, HasFirm;
    var own := Own(base, entries);
    assert own[|own| - 1] == entries[|entries| - 1];
    assert Own(base, entries[..|entries| - 1]) == own[..|own| - 1];
    if k == Firm { FirmCut(own); }
  }

  /** The transcript before the calls of a response are added. */
  lemma AnswerShows(base: seq<Entry>, entries: seq<Entry>, r: Response, run: string, k: Shown)
    requires |base| <= |entries| && Shows(Own(base, entries), k) && (k == Nothing ==> !AlreadyCompleted(entries, r, run))
    ensures var n, entry := |entries|, Answer(entries, r, run);
            var partial := n > |base| && entries[n - 1].streaming && entries[n - 1].activity == None;
            var result := if partial then
                            if r.message.text != "" then entries[..n - 1] + [entry.(id := entries[n - 1].id)] else entries[..n - 1]
                          else if r.message.text != "" && !AlreadyCompleted(entries, r, run) then entries + [entry] else entries;
            Shows(Own(base, result), if r.message.text != "" then Firm else if k == Partial then Nothing else k)
  {
    hide AlreadyCompleted, Shows, Own;
    var n, entry := |entries|, Answer(entries, r, run);
    PlaceOf(base, entries, k);
    if n > |base| && entries[n - 1].streaming && entries[n - 1].activity == None {
      CutShows(base, entries, k);
      PushShows(base, entries[..n - 1], entry.(id := entries[n - 1].id), if k == Partial then Nothing else k);
    } else {
      PushShows(base, entries, entry, k);
    }
  }

  lemma PlaceOf(base: seq<Entry>, entries: seq<Entry>, k: Shown)
    requires |base| <= |entries| && Shows(Own(base, entries), k)
    ensures k == Nothing <==> |entries| == |base|
    ensures k == Partial ==> IsPartial(entries[|entries| - 1])
  {
    if k == Partial { assert Own(base, entries)[0] == entries[|entries| - 1]; }
  }

  lemma ResponseShows(base: seq<Entry>, entries: seq<Entry>, r: Response, run: string, k: Shown)
    requires Extends(base, entries, run) && NoneOf(base, run) && Shows(Own(base, entries), k)
    ensures var after := CompleteResponse(entries, r, run);
            Shows(Own(base, after), if r.message.text != "" || r.message.calls != [] then Firm else if k == Partial then Nothing else k)
  {
    hide Extends, NoneOf, UpsertCalls, AlreadyCompleted, Shows, Own, Answer;
    var n := |entries|;
    LastOfExtends(base, entries, run);
    ExtendsSize(base, entries, run);
    PlaceOf(base, entries, k);
    if k == Nothing { SilentIsNew(base, entries, r, run); }
    AnswerShows(base, entries, r, run, k);
    assert entries[..n] == entries && entries[n..] == [];
    var entry := Answer(entries, r, run);
    var partial := n > |base| && entries[n - 1].streaming && entries[n - 1].activity == None;
    var result := if partial then
                    if r.message.text != "" then entries[..n - 1] + [entry.(id := entries[n - 1].id)] else entries[..n - 1]
                  else if r.message.text != "" && !AlreadyCompleted(entries, r, run) then entries + [entry] else entries;
    AnswerExtends(base, entries, r, run);
    CallsShow(base, result, r.message.calls, run, if r.message.text != "" then Firm else if k == Partial then Nothing else k);
    assert UpsertCalls(result, r.message.calls, run) + [] == UpsertCalls(result, r.message.calls, run);
  }

  lemma AnswerExtends(base: seq<Entry>, entries: seq<Entry>, r: Response, run: string)
    requires Extends(base, entries, run) && NoneOf(base, run) && |base| <= |entries|
    ensures var n, entry := |entries|, Answer(entries, r, run);
            && Extends(base, entries + [entry], run)
            && (n > |base| ==> Extends(base, entries[..n - 1], run)
                               && Extends(base, entries[..n - 1] + [entry.(id := entries[n - 1].id)], run))
  {
    hide Extends, NoneOf;
    var n, entry := |entries|, Answer(entries, r, run);
    ExtendsPush(base, entries, entry, run);
    if n > |base| {
      ExtendsCut(base, entries, n - 1, run);
      ExtendsPush(base, entries[..n - 1], entry.(id := entries[n - 1].id), run);
    }
  }

  /** A transcript that shows nothing of the run has not completed the response. */
  lemma SilentIsNew(base: seq<Entry>, entries: seq<Entry>, r: Response, run: string)
    requires Extends(base, entries, run) && NoneOf(base, run) && |entries| == |base|
    ensures !AlreadyCompleted(entries, r, run)
  {
    assert entries == base;
    NoTextOf(entries, run);
  }

  lemma DeltaShows(base: seq<Entry>, entries: seq<Entry>, delta: string, run: string, k: Shown)
    requires Extends(base, entries, run) && NoneOf(base, run) && Shows(Own(base, entries), k)
    ensures Shows(Own(base, ApplyDelta(entries, delta, run)), if k == Nothing then Partial else k)
  {
    hide Extends, NoneOf, Shows, Own;
    var n := |entries|;
    ExtendsSize(base, entries, run);
    PlaceOf(base, entries, k);
    if n > 0 { OwnFrom(base, entries, run, n - 1); }
    var continuing := n > 0 && IsOf(entries[n - 1], run) && entries[n - 1].streaming && entries[n - 1].activity == None;
    var text := (if continuing then entries[n - 1].text else "") + delta;
    var entry := Entry(if continuing then entries[n - 1].id else "stream-" + run + "-" + Ledger.Digits(n),
                       "assistant", text, Content("assistant", text, []), None, None, Some(run), true, false, None);
    if continuing {
      CutShows(base, entries, k);
      PushShows(base, entries[..n - 1], entry, if k == Partial then Nothing else k);
    } else {
      PushShows(base, entries, entry, k);
    }
  }

  lemma TraceShows(base: seq<Entry>, entries: seq<Entry>, e: Event, run: string, k: Shown)
    requires Extends(base, entries, run) && NoneOf(base, run) && Shows(Own(base, entries), k)
    ensures Shows(Own(base, ApplyTrace(entries, e, run)), NextShown(k, e))
  {
    hide Extends, NoneOf, CompleteResponse, UpsertTool, ApplyDelta, UpdateOf, Shows, Own;
    var call := OrElse(e.call, e.approvalCall);
    if e.response.Some? { ResponseShows(base, entries, e.response.value, run, k); }
    if call.Some? { UpsertShows(base, entries, call.value, run, UpdateOf(e), k); }
    DeltaShows(base, entries, e.delta, run, k);
  }

  lemma {:induction false} EventsShow(base: seq<Entry>, entries: seq<Entry>, events: seq<Event>, run: string, k: Shown)
    requires Extends(base, entries, run) && NoneOf(base, run) && Shows(Own(base, entries), k)
    ensures Shows(Own(base, ApplyAll(entries, events, run)), ShownAfter(k, events))
    decreases |events|
  {
    hide Extends, NoneOf, ApplyTrace, Shows;
    if events != [] {
      TraceShows(base, entries, events[0], run, k);
      ExtendsTrace(base, entries, events[0], run);
      EventsShow(base, ApplyTrace(entries, events[0], run), events[1..], run, NextShown(k, events[0]));
    }
  }

  lemma {:induction false} ApprovalsShow(base: seq<Entry>, entries: seq<Entry>, events: seq<Event>, approvals: seq<Call>, run: string)
    requires Extends(base, entries, run) && NoneOf(base, run) && Shows(Own(base, entries), Firm)
    ensures Shows(Own(base, AddApprovals(entries, events, approvals, run)), Firm)
    decreases |approvals|
  {
    hide Extends, NoneOf, ApplyTrace, ShowsApproval, Shows;
    if approvals != [] {
      var e := BareEvent(ApprovalRequested).(approvalCall := Some(approvals[0]));
      ExtendsTrace(base, entries, e, run);
      TraceShows(base, entries, e, run, Firm);
      var next := if ShowsApproval(entries, events, approvals[0].id, run) then ApplyTrace(entries, e, run) else entries;
      ApprovalsShow(base, next, events, approvals[1..], run);
    }
  }

  lemma {:induction false} NoCallYet(entries: seq<Entry>, call: string, run: string)
    requires forall e :: e in entries ==> !IsOf(e, run) || e.activity == None
    ensures Recorded(entries, call, run) == None
  {
    if entries != [] {
      assert entries[|entries| - 1] in entries;
      NoCallYet(entries[..|entries| - 1], call, run);
    }
  }

  /** A pending approval always shows. */
  lemma FirstApprovalShows(base: seq<Entry>, entries: seq<Entry>, events: seq<Event>, approvals: seq<Call>, run: string, k: Shown)
    requires Extends(base, entries, run) && NoneOf(base, run) && Shows(Own(base, entries), k) && approvals != []
    ensures Shows(Own(base, AddApprovals(entries, events, approvals, run)), Firm)
  {
    hide Extends, ApplyTrace, IsDecided;
    if k == Firm {
      ApprovalsShow(base, entries, events, approvals, run);
    } else {
      var e := BareEvent(ApprovalRequested).(approvalCall := Some(approvals[0]));
      ExtendsSize(base, entries, run);
      forall x | x in entries ensures !IsOf(x, run) || x.activity == None {
        var i :| 0 <= i < |entries| && entries[i] == x;
        if i < |base| { assert base[i] in base; } else { assert entries[|base|..][i - |base|] == x; }
      }
      NoCallYet(entries, approvals[0].id, run);
      ExtendsTrace(base, entries, e, run);
      TraceShows(base, entries, e, run, k);
      ApprovalsShow(base, ApplyTrace(entries, e, run), events, approvals[1..], run);
    }
  }

  lemma {:induction false} OthersUntouched(entries: seq<Entry>, run: Snapshot)
    requires NoneOf(entries, run.id)
    ensures SettleAll(entries, run) == entries && DropNotices(entries, run.id) == entries
  {
    if entries != [] {
      assert entries[0] in entries;
      OthersUntouched(entries[1..], run);
    }
  }

  lemma {:induction false} OwnAreKept(entries: seq<Entry>, run: string)
    requires forall e :: e in entries && IsOf(e, run) ==> !e.notice
    ensures DropNotices(entries, run) == entries
  {
    if entries != [] {
      assert entries[0] in entries;
      OwnAreKept(entries[1..], run);
    }
  }

  /** Whether a run shows anything, told from its snapshot alone. */
  predicate IsSilent(run: Snapshot) {
    ShownAfter(Nothing, Unseen(EventsOf(run), {})) == Nothing && run.approvals == [] && NoticeOf(run) == []
  }

  lemma SilentShowsNothing(base: seq<Entry>, run: Snapshot)
    requires NoneOf(base, run.id) && IsSilent(run)
    ensures Finish(ApplyAll(base, Unseen(EventsOf(run), {}), run.id), run) == base
  {
    hide ShownAfter, SettleAll, DropNotices, NoneOf, Extends;
    var events := Unseen(EventsOf(run), {});
    BaseExtends(base, run.id);
    assert Own(base, base) == [];
    EventsShow(base, base, events, run.id, Nothing);
    ExtendsAll(base, base, events, run.id);
    var applied := ApplyAll(base, events, run.id);
    ExtendsSize(base, applied, run.id);
    PlaceOf(base, applied, Nothing);
    assert applied == applied[..|base|];
    NoApprovals(base, run);
    OthersUntouched(base, run);
    assert base + [] == base;
  }

  lemma SpeakingShows(base: seq<Entry>, run: Snapshot)
    requires NoneOf(base, run.id) && !IsSilent(run)
    ensures exists e :: e in Finish(ApplyAll(base, Unseen(EventsOf(run), {}), run.id), run) && IsOf(e, run.id)
  {
    hide ShownAfter, NoneOf, Extends, AddApprovals, SettledEntry;
    var events := Unseen(EventsOf(run), {});
    BaseExtends(base, run.id);
    assert Own(base, base) == [];
    EventsShow(base, base, events, run.id, Nothing);
    ExtendsAll(base, base, events, run.id);
    var applied, k := ApplyAll(base, events, run.id), ShownAfter(Nothing, events);
    var added := AddApprovals(applied, EventsOf(run), run.approvals, run.id);
    ExtendsApprovals(base, applied, EventsOf(run), run.approvals, run.id);
    if NoticeOf(run) != [] {
      assert NoticeOf(run)[0] in Finish(applied, run) && IsOf(NoticeOf(run)[0], run.id);
    } else {
      if run.approvals != [] { FirstApprovalShows(base, applied, EventsOf(run), run.approvals, run.id, k); } else { NoApprovals(applied, run); }
      OwnShow(base, added, run);
    }
  }

  lemma NoApprovals(entries: seq<Entry>, run: Snapshot)
    requires run.approvals == []
    ensures AddApprovals(entries, EventsOf(run), run.approvals, run.id) == entries
  {
  }

  /** Entries of the run that are no notices are shown. */
  lemma OwnShow(base: seq<Entry>, added: seq<Entry>, run: Snapshot)
    requires Extends(base, added, run.id) && NoneOf(base, run.id) && Own(base, added) != []
    requires forall e :: e in Own(base, added) ==> !e.notice
    ensures var settled := if run.status == RunRunning || run.status == RunUnknown then added else SettleAll(added, run);
            exists e :: e in DropNotices(settled, run.id) && IsOf(e, run.id)
  {
    hide Settled;
    var settled := if run.status == RunRunning || run.status == RunUnknown then added else SettleAll(added, run);
    ExtendsSize(base, added, run.id);
    forall e | e in settled && IsOf(e, run.id) ensures !e.notice {
      var i :| 0 <= i < |settled| && settled[i] == e;
      OwnFrom(base, added, run.id, i);
      assert added[|base|..][i - |base|] == added[i];
    }
    OwnAreKept(settled, run.id);
    assert added[|base|..][0] == added[|base|];
    assert settled[|base|] in settled && IsOf(settled[|base|], run.id);
  }

  /** Reconciling is idempotent on any transcript at all, the run's entries mixed with others, for
      every snapshot with events. */
  lemma ReconcilingTwice(entries: seq<Entry>, run: Snapshot)
    requires EventsOf(run) != []
    ensures Reconciled(Reconciled(entries, run), run) == Reconciled(entries, run)
  {
    hide Finish, ApplyAll, Others, Unseen, IsSilent;
    var n := FirstOf(entries, run.id);
    var base, others := entries[..n], Others(entries[n..], run.id);
    var shown := Finish(ApplyAll(base, Unseen(EventsOf(run), {}), run.id), run);
    var out := shown + others;
    if IsSilent(run) {
      SilentShowsNothing(base, run);
      SilentShowsNothing(out, run);
      NoneFirst(out, run.id);
    } else {
      SpeakingShows(base, run);
      ReconciledIs(base, run);
      SplitAfterBase(base, shown, others, run.id);
    }
  }

  lemma NoneFirst(entries: seq<Entry>, run: string)
    requires NoneOf(entries, run)
    ensures FirstOf(entries, run) == |entries| && entries[..|entries|] == entries && Others(entries[|entries|..], run) == []
  {
    forall i | 0 <= i < |entries| ensures !IsOf(entries[i], run) { assert entries[i] in entries; }
  }

  lemma ReconciledIs(base: seq<Entry>, run: Snapshot)
    requires NoneOf(base, run.id) && EventsOf(run) != []
    ensures Extends(base, Finish(ApplyAll(base, Unseen(EventsOf(run), {}), run.id), run), run.id)
  {
    hide Finish, ApplyAll, Unseen, Reconciled, Extends, NoneOf;
    BaseExtends(base, run.id);
    ReconciledFromBase(base, base, run);
  }

  /** The run's entries start right after the base, and the others follow them unchanged. */
  lemma SplitAfterBase(base: seq<Entry>, shown: seq<Entry>, others: seq<Entry>, run: string)
    requires Extends(base, shown, run) && NoneOf(base, run) && NoneOf(others, run)
    requires exists e :: e in shown && IsOf(e, run)
    ensures var out := shown + others;
            FirstOf(out, run) == |base| && out[..|base|] == base && Others(out[|base|..], run) == others
  {
    var out := shown + others;
    var e :| e in shown && IsOf(e, run);
    var i :| 0 <= i < |shown| && shown[i] == e;
    OwnFrom(base, shown, run, i);
    OwnFrom(base, shown, run, |base|);
    assert out[|base|] == shown[|base|];
    forall k | 0 <= k < |base| ensures !IsOf(out[k], run) {
      assert out[k] == base[k] && base[k] in base;
    }
    assert out[|base|..] == shown[|base|..] + others;
    OthersConcat(shown[|base|..], others, run);
    NoOthers(shown[|base|..], run);
    OthersOfOthers(others, run);
  }

  // --------------------------------------------------------------------- the loops

  /** reconcileRunTranscript, for a snapshot with events. */
  method ReconcileRunTranscript(entries: seq<Entry>, run: Snapshot) returns (result: seq<Entry>)
    ensures result == Reconciled(entries, run)
  {
    hide Finish, ApplyAll, Unseen;
    var events := EventsOf(run);
    var trailing: seq<Entry> := [];
    result := entries;
    if events == [] {
      var last := LastOf(entries, run.id);
      if last > 0 { result, trailing := entries[..last], entries[last..]; }
    } else {
      var first := FirstOf(entries, run.id);
      result, trailing := entries[..first], Others(entries[first..], run.id);
      result := ReplayTrace(result, events, run.id);
    }
    result := ShowRun(result, events, run);
    if trailing == [] { assert result + [] == result; }
    result := result + trailing;
  }

  method ReplayTrace(entries: seq<Entry>, events: seq<Event>, run: string) returns (result: seq<Entry>)
    ensures result == ApplyAll(entries, Unseen(events, {}), run)
  {
    hide ApplyTrace;
    result := entries;
    var seen: set<nat> := {};
    var i := 0;
    assert events[0..] == events;
    while i < |events|
      invariant 0 <= i <= |events|
      invariant ApplyAll(result, Unseen(events[i..], seen), run) == ApplyAll(entries, Unseen(events, {}), run)
    {
      var e := events[i];
      assert events[i..][1..] == events[i + 1..];
      if e.sequence == None || e.sequence.value !in seen {
        ghost var rest := Unseen(events[i + 1..], if e.sequence.Some? then seen + {e.sequence.value} else seen);
        assert ([e] + rest)[1..] == rest;
        if e.sequence.Some? { seen := seen + {e.sequence.value}; }
        result := ApplyTrace(result, e, run);
      }
      i := i + 1;
    }
    assert events[i..] == [];
  }

  /** Pending approvals, settled calls and the notice of a stopped run. */
  method ShowRun(entries: seq<Entry>, events: seq<Event>, run: Snapshot) returns (result: seq<Entry>)
    requires events == EventsOf(run)
    ensures result == Finish(entries, run)
  {
    hide ApplyTrace, ShowsApproval, SettleAll, DropNotices;
    result := entries;
    var i := 0;
    assert run.approvals[0..] == run.approvals;
    while i < |run.approvals|
      invariant 0 <= i <= |run.approvals|
      invariant AddApprovals(result, events, run.approvals[i..], run.id) == AddApprovals(entries, events, run.approvals, run.id)
    {
      var call := run.approvals[i];
      assert run.approvals[i..][1..] == run.approvals[i + 1..];
      if ShowsApproval(result, events, call.id, run.id) {
        result := ApplyTrace(result, BareEvent(ApprovalRequested).(approvalCall := Some(call)), run.id);
      }
      i := i + 1;
    }
    assert run.approvals[i..] == [];
    if run.status != RunRunning && run.status != RunUnknown { result := SettleAll(result, run); }
    result := DropNotices(result, run.id);
    result := result + NoticeOf(run);
  }
}
