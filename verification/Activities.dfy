/** What the web client's transcript shows of a run's tool calls and texts
    (frontend/src/domain/chat.ts): each call once, as its last event left it. */
module Activities {
  import opened Wrappers
  import opened Transcripts

  // ------------------------------------------------------------------ tidy transcripts

  /** Responses do not come from the user. */
  predicate NoUsers(events: seq<Event>) {
    forall e :: e in events && e.response.Some? ==> e.response.value.message.role != "user"
  }

  predicate SameCall(a: Entry, b: Entry) {
    a.activity.Some? && b.activity.Some? && a.activity.value.callId == b.activity.value.callId
  }

  /** The run's entries stand behind the base, none is a notice or a user's, and each call has one. */
  ghost predicate Tidy(base: seq<Entry>, entries: seq<Entry>, run: string) {
    && Extends(base, entries, run) && NoneOf(base, run)
    && (forall i :: |base| <= i < |entries| ==> entries[i].role != "user" && !entries[i].notice)
    && (forall i, j :: |base| <= i < j < |entries| ==> !SameCall(entries[i], entries[j]))
  }

  lemma BaseIsTidy(base: seq<Entry>, run: string)
    requires NoneOf(base, run)
    ensures Tidy(base, base, run)
  {
  }

  lemma {:induction false} TurnInBase(base: seq<Entry>, entries: seq<Entry>)
    requires base <= entries && forall i :: |base| <= i < |entries| ==> entries[i].role != "user"
    ensures TurnStart(entries) <= |base|
    decreases |entries|
  {
    if |entries| > |base| {
      assert entries[..|entries| - 1][..|base|] == entries[..|base|];
      TurnInBase(base, entries[..|entries| - 1]);
    }
  }

  /** Looking for the last entry of a call, from the end or from the turn on, finds the same. */
  lemma {:induction false} LookedUp(entries: seq<Entry>, start: nat, call: string, run: string)
    requires start <= |entries| && forall i :: 0 <= i < start ==> !IsOf(entries[i], run)
    ensures var n := LastCall(entries, start, call, run);
            if n == start then Recorded(entries, call, run) == None
            else Recorded(entries, call, run) == entries[n - 1].activity && entries[n - 1].activity.Some?
    ensures forall i :: LastCall(entries, start, call, run) <= i < |entries| ==> !IsCallOf(entries[i], call, run)
    decreases |entries|
  {
    var n := |entries|;
    if n == start {
      NoneRecorded(entries, call, run);
    } else if !IsCallOf(entries[n - 1], call, run) {
      LookedUp(entries[..n - 1], start, call, run);
    }
  }

  lemma {:induction false} NoneRecorded(entries: seq<Entry>, call: string, run: string)
    requires forall i :: 0 <= i < |entries| ==> !IsCallOf(entries[i], call, run)
    ensures Recorded(entries, call, run) == None
  {
    if entries != [] { NoneRecorded(entries[..|entries| - 1], call, run); }
  }

  lemma RecordedPush(entries: seq<Entry>, e: Entry, call: string, run: string)
    ensures Recorded(entries + [e], call, run) == if IsCallOf(e, call, run) then e.activity else Recorded(entries, call, run)
  {
    assert (entries + [e])[..|entries|] == entries;
  }

  lemma {:induction false} RecordedPut(entries: seq<Entry>, i: nat, e: Entry, call: string, run: string)
    requires i < |entries|
    requires forall j :: i < j < |entries| ==> !IsCallOf(entries[j], call, run)
    ensures IsCallOf(e, call, run) ==> Recorded(entries[i := e], call, run) == e.activity
    decreases |entries|
  {
    var n := |entries| - 1;
    var after := entries[i := e];
    if i < n {
      assert after[..n] == entries[..n][i := e];
      RecordedPut(entries[..n], i, e, call, run);
    }
  }

  /** An entry of another call, or of none, put in the place of such an entry. */
  lemma {:induction false} RecordedElsewhere(entries: seq<Entry>, i: nat, e: Entry, call: string, run: string)
    requires i < |entries| && !IsCallOf(e, call, run) && !IsCallOf(entries[i], call, run)
    ensures Recorded(entries[i := e], call, run) == Recorded(entries, call, run)
    decreases |entries|
  {
    var n := |entries| - 1;
    var after := entries[i := e];
    if i < n {
      assert after[..n] == entries[..n][i := e];
      RecordedElsewhere(entries[..n], i, e, call, run);
    } else {
      assert after[..n] == entries[..n];
    }
  }

  // ----------------------------------------------------------------- what events leave

  /** The activity a tool event leaves for a call. */
  function Updated(before: Option<Activity>, call: Call, u: Update): Activity {
    if before.Some? && u.preserve then before.value else NextActivity(call, u, before)
  }

  lemma UpsertRecords(base: seq<Entry>, entries: seq<Entry>, call: Call, run: string, u: Update, id: string)
    requires Tidy(base, entries, run)
    ensures var after := UpsertTool(entries, call, run, u);
            Recorded(after, id, run)
            == if id == call.id then Some(Updated(Recorded(entries, id, run), call, u)) else Recorded(entries, id, run)
  {
    hide NextActivity, NoneOf, Recorded;
    ActivityIsOf(call, u);
    TurnInBase(base, entries);
    var start := TurnStart(entries);
    BaseIsOthers(base, entries, run);
    LookedUp(entries, start, call.id, run);
    var n := LastCall(entries, start, call.id, run);
    if n == start {
      RecordedPush(entries, ToolEntry(call, run, u, None, |entries|), id, run);
    } else if !u.preserve {
      var e := ToolEntry(call, run, u, Some(entries[n - 1]), |entries|);
      if id == call.id { RecordedPut(entries, n - 1, e, id, run); } else { RecordedElsewhere(entries, n - 1, e, id, run); }
    }
  }

  lemma ActivityIsOf(call: Call, u: Update)
    ensures forall before :: NextActivity(call, u, before).callId == call.id
  {
  }

  lemma BaseIsOthers(base: seq<Entry>, entries: seq<Entry>, run: string)
    requires base <= entries && NoneOf(base, run)
    ensures forall i :: 0 <= i < |base| ==> !IsOf(entries[i], run)
  {
    forall i | 0 <= i < |base| ensures !IsOf(entries[i], run) {
      assert entries[i] == base[i] && base[i] in base;
    }
  }

  lemma UpsertTidies(base: seq<Entry>, entries: seq<Entry>, call: Call, run: string, u: Update)
    requires Tidy(base, entries, run)
    ensures Tidy(base, UpsertTool(entries, call, run, u), run)
  {
    hide NextActivity, NoneOf, Extends;
    ActivityIsOf(call, u);
    ExtendsUpsert(base, entries, call, run, u);
    ExtendsSize(base, entries, run);
    PrefixOf(base, entries, run);
    TurnInBase(base, entries);
    var start := TurnStart(entries);
    BaseIsOthers(base, entries, run);
    LookedUp(entries, start, call.id, run);
    var n := LastCall(entries, start, call.id, run);
    if n == start {
      OwnIs(base, entries, run);
      PushTidy(base, entries, ToolEntry(call, run, u, None, |entries|));
    } else if !u.preserve {
      PutTidy(base, entries, n - 1, ToolEntry(call, run, u, Some(entries[n - 1]), |entries|));
    }
  }

  lemma PrefixOf(base: seq<Entry>, entries: seq<Entry>, run: string)
    requires Extends(base, entries, run)
    ensures base <= entries
  {
  }

  lemma OwnIs(base: seq<Entry>, entries: seq<Entry>, run: string)
    requires Extends(base, entries, run)
    ensures forall i :: |base| <= i < |entries| ==> IsOf(entries[i], run)
  {
    forall i | |base| <= i < |entries| ensures IsOf(entries[i], run) {
      assert entries[|base|..][i - |base|] == entries[i];
    }
  }

  lemma PushTidy(base: seq<Entry>, entries: seq<Entry>, e: Entry)
    requires forall i :: |base| <= i < |entries| ==> entries[i].role != "user" && !entries[i].notice && !SameCall(entries[i], e)
    requires forall i, j :: |base| <= i < j < |entries| ==> !SameCall(entries[i], entries[j])
    requires e.role != "user" && !e.notice
    ensures var after := entries + [e];
            && (forall i :: |base| <= i < |after| ==> after[i].role != "user" && !after[i].notice)
            && (forall i, j :: |base| <= i < j < |after| ==> !SameCall(after[i], after[j]))
  {
  }

  lemma PutTidy(base: seq<Entry>, entries: seq<Entry>, n: nat, e: Entry)
    requires n < |entries| && e.role != "user" && !e.notice
    requires entries[n].activity.Some? && e.activity.Some? && e.activity.value.callId == entries[n].activity.value.callId
    requires forall i :: |base| <= i < |entries| ==> entries[i].role != "user" && !entries[i].notice
    requires forall i, j :: |base| <= i < j < |entries| ==> !SameCall(entries[i], entries[j])
    ensures var after := entries[n := e];
            && (forall i :: |base| <= i < |after| ==> after[i].role != "user" && !after[i].notice)
            && (forall i, j :: |base| <= i < j < |after| ==> !SameCall(after[i], after[j]))
  {
    var after := entries[n := e];
    forall i, j | |base| <= i < j < |after| ensures !SameCall(after[i], after[j]) {
      assert !SameCall(entries[i], entries[j]);
    }
  }

  /** The pending calls of a response never change what an earlier event left. */
  lemma {:induction false} CallsRecord(base: seq<Entry>, entries: seq<Entry>, calls: seq<Call>, run: string, id: string)
    requires Tidy(base, entries, run)
    ensures var after := UpsertCalls(entries, calls, run);
            && Tidy(base, after, run)
            && (Recorded(entries, id, run).Some? ==> Recorded(after, id, run) == Recorded(entries, id, run))
            && (Recorded(entries, id, run) == None ==>
                  if exists call :: call in calls && call.id == id
                  then Recorded(after, id, run).Some? && Recorded(after, id, run).value.status == Pending
                  else Recorded(after, id, run) == None)
    decreases |calls|
  {
    hide Tidy, UpsertTool, Recorded;
    if calls != [] {
      var u := Update(Pending, None, true, None, None, None, None);
      UpsertRecords(base, entries, calls[0], run, u, id);
      UpsertTidies(base, entries, calls[0], run, u);
      CallsRecord(base, UpsertTool(entries, calls[0], run, u), calls[1..], run, id);
      assert calls == [calls[0]] + calls[1..];
    }
  }

  /** Neither do its text and the texts still streaming. */
  lemma ResponseRecords(base: seq<Entry>, entries: seq<Entry>, r: Response, run: string, id: string)
    requires Tidy(base, entries, run) && r.message.role != "user"
    ensures var after := CompleteResponse(entries, r, run);
            && Tidy(base, after, run)
            && (Recorded(entries, id, run).Some? ==> Recorded(after, id, run) == Recorded(entries, id, run))
            && (Recorded(entries, id, run) == None ==>
                  Recorded(after, id, run) == None || Recorded(after, id, run).value.status == Pending)
  {
    hide Tidy, UpsertCalls, AlreadyCompleted, Recorded, Answer, CompleteResponse;
    PlacedAtEnd(base, entries, r, run);
    var n, entry := |entries|, Answer(entries, r, run);
    AnswerIsText(entries, r, run);
    if StillStreams(entries, run) {
      TextTaken(base, entries, run, id);
      TextPushed(base, entries[..n - 1], entry.(id := entries[n - 1].id), run, id);
    } else {
      TextPushed(base, entries, entry, run, id);
    }
    CallsRecord(base, Placed(entries, r, run), r.message.calls, run, id);
  }

  /** The last entry is a text of the run that still streams. */
  predicate StillStreams(entries: seq<Entry>, run: string) {
    entries != [] && var last := entries[|entries| - 1]; IsOf(last, run) && last.streaming && last.activity == None
  }

  /** What is shown once a response's text has its place, before its calls are added. */
  function Placed(entries: seq<Entry>, r: Response, run: string): seq<Entry> {
    var n, entry := |entries|, Answer(entries, r, run);
    if StillStreams(entries, run) then
      if r.message.text != "" then entries[..n - 1] + [entry.(id := entries[n - 1].id)] else entries[..n - 1]
    else if r.message.text != "" && !AlreadyCompleted(entries, r, run) then entries + [entry]
    else entries
  }

  lemma PlacedAtEnd(base: seq<Entry>, entries: seq<Entry>, r: Response, run: string)
    requires Tidy(base, entries, run)
    ensures CompleteResponse(entries, r, run) == UpsertCalls(Placed(entries, r, run), r.message.calls, run)
    ensures StillStreams(entries, run) ==> |entries| > |base|
  {
    hide Tidy, UpsertCalls, AlreadyCompleted, Answer;
    var n := |entries|;
    TidySize(base, entries, run);
    assert entries[..n] == entries && entries[n..] == [];
    TidyBase(base, entries, run);
    if n > |base| { LastIsOwn(base, entries, run); }
    assert UpsertCalls(Placed(entries, r, run), r.message.calls, run) + [] == UpsertCalls(Placed(entries, r, run), r.message.calls, run);
  }

  lemma LastIsOwn(base: seq<Entry>, entries: seq<Entry>, run: string)
    requires Tidy(base, entries, run) && |entries| > |base|
    ensures IsOf(entries[|entries| - 1], run)
  {
    ExtendsSize(base, entries, run);
    OwnFrom(base, entries, run, |entries| - 1);
  }

  lemma AnswerIsText(entries: seq<Entry>, r: Response, run: string)
    requires r.message.role != "user"
    ensures var e := Answer(entries, r, run);
            IsOf(e, run) && e.activity == None && e.role != "user" && !e.notice && !e.streaming
            && (r.message.text != "" ==> e.text == r.message.text)
  {
  }

  lemma TidySize(base: seq<Entry>, entries: seq<Entry>, run: string)
    requires Tidy(base, entries, run)
    ensures |base| <= |entries| && LastOf(entries, run) == if |entries| > |base| then |entries| else 0
  {
    LastOfExtends(base, entries, run);
    ExtendsSize(base, entries, run);
  }

  lemma TextPushed(base: seq<Entry>, entries: seq<Entry>, e: Entry, run: string, id: string)
    requires Tidy(base, entries, run) && IsOf(e, run) && e.activity == None && e.role != "user" && !e.notice
    ensures Tidy(base, entries + [e], run) && Recorded(entries + [e], id, run) == Recorded(entries, id, run)
  {
    hide Extends, NoneOf, Recorded;
    ExtendsPush(base, entries, e, run);
    RecordedPush(entries, e, id, run);
    PushTidy(base, entries, e);
  }

  lemma TextTaken(base: seq<Entry>, entries: seq<Entry>, run: string, id: string)
    requires Tidy(base, entries, run) && |entries| > |base| && entries[|entries| - 1].activity == None
    ensures var front := entries[..|entries| - 1]; Tidy(base, front, run) && Recorded(front, id, run) == Recorded(entries, id, run)
  {
    ExtendsCut(base, entries, |entries| - 1, run);
  }

  lemma DeltaRecords(base: seq<Entry>, entries: seq<Entry>, delta: string, run: string, id: string)
    requires Tidy(base, entries, run)
    ensures var after := ApplyDelta(entries, delta, run);
            Tidy(base, after, run) && Recorded(after, id, run) == Recorded(entries, id, run)
  {
    hide Tidy, Recorded;
    var n := |entries|;
    TidyBase(base, entries, run);
    var continuing := n > 0 && IsOf(entries[n - 1], run) && entries[n - 1].streaming && entries[n - 1].activity == None;
    var text := (if continuing then entries[n - 1].text else "") + delta;
    var front := if continuing then entries[..n - 1] else entries;
    if continuing { TextTaken(base, entries, run, id); }
    var entry := ApplyDelta(entries, delta, run)[|front|];
    TextPushed(base, front, entry, run, id);
  }

  lemma TidyBase(base: seq<Entry>, entries: seq<Entry>, run: string)
    requires Tidy(base, entries, run)
    ensures |entries| > 0 && IsOf(entries[|entries| - 1], run) ==> |entries| > |base|
  {
    if |entries| > 0 { OwnFrom(base, entries, run, |entries| - 1); }
  }

  /** A tool event about the call. */
  predicate IsAbout(e: Event, id: string) {
    IsToolEvent(e.kind) && OrElse(e.call, e.approvalCall).Some? && OrElse(e.call, e.approvalCall).value.id == id
  }

  lemma TraceRecords(base: seq<Entry>, entries: seq<Entry>, e: Event, run: string, id: string)
    requires Tidy(base, entries, run) && (e.response.Some? ==> e.response.value.message.role != "user")
    ensures var after := ApplyTrace(entries, e, run);
            && Tidy(base, after, run)
            && (IsAbout(e, id) ==>
                  Recorded(after, id, run) == Some(NextActivity(OrElse(e.call, e.approvalCall).value, UpdateOf(e), Recorded(entries, id, run))))
            && (!IsAbout(e, id) && Recorded(entries, id, run).Some? ==> Recorded(after, id, run) == Recorded(entries, id, run))
            && (!IsAbout(e, id) && Recorded(entries, id, run) == None ==>
                  Recorded(after, id, run) == None || Recorded(after, id, run).value.status == Pending)
  {
    hide Tidy, CompleteResponse, UpsertTool, ApplyDelta, Recorded, NextActivity;
    var call := OrElse(e.call, e.approvalCall);
    if e.response.Some? { ResponseRecords(base, entries, e.response.value, run, id); }
    if call.Some? {
      UpsertRecords(base, entries, call.value, run, UpdateOf(e), id);
      UpsertTidies(base, entries, call.value, run, UpdateOf(e));
    }
    DeltaRecords(base, entries, e.delta, run, id);
  }

  lemma {:induction false} EventsTidy(base: seq<Entry>, entries: seq<Entry>, events: seq<Event>, run: string, id: string)
    requires Tidy(base, entries, run) && NoUsers(events)
    ensures var after := ApplyAll(entries, events, run);
            && Tidy(base, after, run)
            && ((forall e :: e in events ==> !IsAbout(e, id)) && Recorded(entries, id, run).Some? ==>
                  Recorded(after, id, run) == Recorded(entries, id, run))
    decreases |events|
  {
    hide Tidy, ApplyTrace, Recorded, IsAbout;
    if events != [] {
      assert events[0] in events && forall e :: e in events[1..] ==> e in events;
      TraceRecords(base, entries, events[0], run, id);
      EventsTidy(base, ApplyTrace(entries, events[0], run), events[1..], run, id);
    }
  }

  // ------------------------------------------------------------ what a call is shown as

  /** What an event says about its call: how it stands, and for a result or an error its text. */
  predicate Says(e: Event, a: Activity) {
    match e.kind
    case ToolStarted => a.status == Running
    case ToolCompleted => a.status == Completed && (e.error == None && e.resultText.Some? ==> a.resultText == e.resultText)
    case ToolFailed =>
      && a.status == Failed && (e.error.Some? ==> a.resultText == e.error)
      && (e.error == None && e.resultText == None ==> a.resultText == Some("tool failed"))
    case ApprovalRequested => a.status == Approval
    case ApprovalDecided => a.status == if e.approved then Pending else Failed
    case _ => true
  }

  lemma UpdateSays(e: Event, call: Call, before: Option<Activity>)
    ensures var a := NextActivity(call, UpdateOf(e), before); Says(e, a) && a.callId == call.id && a.errorType == e.errorType
  {
  }

  lemma {:induction false} ApplyConcat(entries: seq<Entry>, a: seq<Event>, b: seq<Event>, run: string)
    ensures ApplyAll(entries, a + b, run) == ApplyAll(ApplyAll(entries, a, run), b, run)
    decreases |a|
  {
    hide ApplyTrace;
    if a == [] {
      assert a + b == b;
    } else {
      assert (a + b)[1..] == a[1..] + b;
      ApplyConcat(ApplyTrace(entries, a[0], run), a[1..], b, run);
    }
  }

  /** A call is shown as the last event about it says, whatever came before and whatever other
      events followed. */
  lemma LastEventShows(base: seq<Entry>, events: seq<Event>, i: nat, run: string, id: string)
    requires NoneOf(base, run) && NoUsers(events) && i < |events| && IsAbout(events[i], id)
    requires forall j :: i < j < |events| ==> !IsAbout(events[j], id)
    ensures var a := Recorded(ApplyAll(base, events, run), id, run); a.Some? && Says(events[i], a.value)
    ensures Tidy(base, ApplyAll(base, events, run), run)
  {
    hide Tidy, ApplyTrace, Recorded, IsAbout, Says, NextActivity, UpdateOf;
    var e, before, after := events[i], events[..i], events[i + 1..];
    assert events == before + ([e] + after);
    assert e in events && (forall x :: x in before ==> x in events) && forall x :: x in after ==> x in events;
    BaseIsTidy(base, run);
    EventsTidy(base, base, before, run, id);
    var mid := ApplyAll(base, before, run);
    TraceRecords(base, mid, e, run, id);
    AboutSays(e, id, Recorded(mid, id, run));
    EventsTidy(base, ApplyTrace(mid, e, run), after, run, id);
    ApplyConcat(base, before, [e] + after, run);
    assert ([e] + after)[1..] == after;
  }

  lemma AboutSays(e: Event, id: string, before: Option<Activity>)
    requires IsAbout(e, id)
    ensures Says(e, NextActivity(OrElse(e.call, e.approvalCall).value, UpdateOf(e), before))
  {
    hide Says, NextActivity, UpdateOf;
    UpdateSays(e, OrElse(e.call, e.approvalCall).value, before);
  }

  // -------------------------------------------------------------------- settling

  predicate IsConcluded(a: Activity) {
    a.status == Completed || a.status == Failed
  }

  lemma {:induction false} ApprovalsKeepIt(base: seq<Entry>, entries: seq<Entry>, events: seq<Event>, approvals: seq<Call>, run: string, id: string)
    requires Tidy(base, entries, run)
    requires Recorded(entries, id, run).Some? && Recorded(entries, id, run).value.status in {Running, Completed, Failed}
    ensures var after := AddApprovals(entries, events, approvals, run);
            Tidy(base, after, run) && Recorded(after, id, run) == Recorded(entries, id, run)
    decreases |approvals|
  {
    hide Tidy, ApplyTrace, Recorded, IsDecided;
    if approvals != [] {
      var e := BareEvent(ApprovalRequested).(approvalCall := Some(approvals[0]));
      TraceRecords(base, entries, e, run, id);
      var next := if ShowsApproval(entries, events, approvals[0].id, run) then ApplyTrace(entries, e, run) else entries;
      ApprovalsKeepIt(base, next, events, approvals[1..], run, id);
    }
  }

  lemma {:induction false} SettledRecord(entries: seq<Entry>, run: Snapshot, id: string)
    ensures Recorded(SettleAll(entries, run), id, run.id)
            == if Recorded(entries, id, run.id).Some? then Some(Settled(Recorded(entries, id, run.id).value, run)) else None
    decreases |entries|
  {
    hide Settled;
    var out := SettleAll(entries, run);
    if entries != [] {
      var n := |entries| - 1;
      SettleCut(entries, run, n);
      SettledRecord(entries[..n], run, id);
      SettledCall(entries[n], run, id);
    }
  }

  lemma SettleCut(entries: seq<Entry>, run: Snapshot, n: nat)
    requires n <= |entries|
    ensures SettleAll(entries, run)[..n] == SettleAll(entries[..n], run)
  {
    hide SettledEntry;
  }

  lemma SettledCall(e: Entry, run: Snapshot, id: string)
    ensures IsCallOf(SettledEntry(e, run), id, run.id) <==> IsCallOf(e, id, run.id)
    ensures IsCallOf(e, id, run.id) ==> SettledEntry(e, run).activity == Some(Settled(e.activity.value, run))
  {
  }

  lemma {:induction false} RecordedConcat(a: seq<Entry>, b: seq<Entry>, id: string, run: string)
    requires forall e :: e in b ==> !IsCallOf(e, id, run)
    ensures Recorded(a + b, id, run) == Recorded(a, id, run)
    decreases |b|
  {
    if b == [] {
      assert a + b == a;
    } else {
      var n := |b| - 1;
      assert (a + b)[..|a + b| - 1] == a + b[..n] && b[n] in b;
      RecordedConcat(a, b[..n], id, run);
    }
  }

  /** The run's own entries are no notices, so none of them is dropped. */
  lemma NoneDropped(base: seq<Entry>, entries: seq<Entry>, run: Snapshot)
    requires Tidy(base, entries, run.id)
    ensures DropNotices(entries, run.id) == entries && DropNotices(SettleAll(entries, run), run.id) == SettleAll(entries, run)
  {
    hide Settled;
    ExtendsSize(base, entries, run.id);
    forall e | e in entries && IsOf(e, run.id) ensures !e.notice {
      var i :| 0 <= i < |entries| && entries[i] == e;
      OwnFrom(base, entries, run.id, i);
    }
    var settled := SettleAll(entries, run);
    forall e | e in settled && IsOf(e, run.id) ensures !e.notice {
      var i :| 0 <= i < |settled| && settled[i] == e;
      OwnFrom(base, entries, run.id, i);
    }
    OwnAreKept(entries, run.id);
    OwnAreKept(settled, run.id);
  }

  predicate Stopped(run: Snapshot) {
    run.status != RunRunning && run.status != RunUnknown
  }

  lemma FinishRecords(base: seq<Entry>, entries: seq<Entry>, run: Snapshot, id: string)
    requires Tidy(base, entries, run.id)
    requires Recorded(entries, id, run.id).Some? && Recorded(entries, id, run.id).value.status in {Running, Completed, Failed}
    ensures var a := Recorded(entries, id, run.id).value;
            Recorded(Finish(entries, run), id, run.id) == Some(if Stopped(run) then Settled(a, run) else a)
  {
    hide Tidy, AddApprovals, SettleAll, DropNotices, Recorded, Settled;
    var added := AddApprovals(entries, EventsOf(run), run.approvals, run.id);
    ApprovalsKeepIt(base, entries, EventsOf(run), run.approvals, run.id, id);
    SettledRecord(added, run, id);
    NoneDropped(base, added, run);
    RecordedConcat(if Stopped(run) then SettleAll(added, run) else added, NoticeOf(run), id, run.id);
  }

  // ------------------------------------------------------------------ main results

  lemma UnseenAreEvents(events: seq<Event>, seen: set<nat>)
    ensures forall e :: e in Unseen(events, seen) ==> e in events
  {
    if events != [] {
      UnseenAreEvents(events[1..], if events[0].sequence.Some? then seen + {events[0].sequence.value} else seen);
      UnseenAreEvents(events[1..], seen);
    }
  }

  /** The events that are replayed: no sequence number twice, and each that the snapshot holds. */
  lemma {:induction false} UnseenOnce(events: seq<Event>, seen: set<nat>)
    ensures var out := Unseen(events, seen);
            && (forall e :: e in out && e.sequence.Some? ==> e.sequence.value !in seen)
            && (forall i, j :: 0 <= i < j < |out| && out[i].sequence.Some? ==> out[i].sequence != out[j].sequence)
            && (forall e :: e in events && e.sequence == None ==> e in out)
            && (forall e :: e in events && e.sequence.Some? && e.sequence.value !in seen ==>
                              exists x :: x in out && x.sequence == e.sequence)
    decreases |events|
  {
    if events != [] {
      var e, rest := events[0], events[1..];
      if e.sequence.Some? && e.sequence.value in seen {
        UnseenOnce(rest, seen);
      } else {
        var wider := if e.sequence.Some? then seen + {e.sequence.value} else seen;
        UnseenOnce(rest, wider);
        var out := Unseen(rest, wider);
        assert Unseen(events, seen) == [e] + out;
        assert e in [e] + out;
        forall x | x in events && x.sequence.Some? && x.sequence.value !in seen
          ensures exists y :: y in [e] + out && y.sequence == x.sequence
        {
          if x.sequence != e.sequence {
            assert x in rest;
            var y :| y in out && y.sequence == x.sequence;
            assert y in [e] + out;
          }
        }
      }
    }
  }

  /** After reconciling any transcript with a snapshot: a call whose last event was a result is shown
      as completed with it, one whose last event was an error as failed with that, and one that was
      started last as running, or as unfinished once the run no longer runs. */
  lemma OutcomesAreShown(entries: seq<Entry>, run: Snapshot, i: nat, id: string)
    requires EventsOf(run) != [] && NoUsers(EventsOf(run))
    requires var events := Unseen(EventsOf(run), {});
             && i < |events| && IsAbout(events[i], id) && events[i].kind in {ToolStarted, ToolCompleted, ToolFailed}
             && forall j :: i < j < |events| ==> !IsAbout(events[j], id)
    ensures var e, a := Unseen(EventsOf(run), {})[i], Recorded(Reconciled(entries, run), id, run.id);
            && a.Some?
            && (e.kind == ToolCompleted || e.kind == ToolFailed || !Stopped(run) ==> Says(e, a.value))
            && (e.kind == ToolStarted && Stopped(run) ==> a.value.status == Pending && a.value.notice.Some?)
  {
    hide Tidy, Recorded, Finish, ApplyAll, Unseen, Others, FirstOf, IsAbout, NoneOf;
    var events := Unseen(EventsOf(run), {});
    var n := FirstOf(entries, run.id);
    var base, others := entries[..n], Others(entries[n..], run.id);
    FirstIsBase(entries, run.id);
    UnseenAreEvents(EventsOf(run), {});
    LastEventShows(base, events, i, run.id, id);
    FinishRecords(base, ApplyAll(base, events, run.id), run, id);
    RecordedConcat(Finish(ApplyAll(base, events, run.id), run), others, id, run.id);
  }

  lemma FirstIsBase(entries: seq<Entry>, run: string)
    ensures NoneOf(entries[..FirstOf(entries, run)], run)
  {
    var n := FirstOf(entries, run);
    forall e | e in entries[..n] ensures !IsOf(e, run) {
      var i :| 0 <= i < n && entries[..n][i] == e;
    }
  }

  /** Nothing of a run that no longer runs is shown as running or still streaming. */
  lemma NothingRunsOn(entries: seq<Entry>, run: Snapshot)
    requires Stopped(run) && EventsOf(run) != []
    ensures forall e :: e in Reconciled(entries, run) && IsOf(e, run.id) ==>
              !e.streaming && (e.activity.Some? ==> e.activity.value.status != Running)
  {
    hide AddApprovals, ApplyAll, Unseen, Settled;
    var n := FirstOf(entries, run.id);
    var result := ApplyAll(entries[..n], Unseen(EventsOf(run), {}), run.id);
    var added := AddApprovals(result, EventsOf(run), run.approvals, run.id);
    var settled := SettleAll(added, run);
    DroppedAreEntries(settled, run.id);
    forall e | e in settled && IsOf(e, run.id) ensures !e.streaming && (e.activity.Some? ==> e.activity.value.status != Running) {
      var i :| 0 <= i < |settled| && settled[i] == e;
      SettledStands(added[i], run);
    }
  }

  lemma SettledStands(e: Entry, run: Snapshot)
    ensures var out := SettledEntry(e, run);
            IsOf(out, run.id) ==> !out.streaming && (out.activity.Some? ==> out.activity.value.status != Running)
  {
  }

  lemma {:induction false} DroppedAreEntries(entries: seq<Entry>, run: string)
    ensures forall e :: e in DropNotices(entries, run) ==> e in entries
  {
    if entries != [] { DroppedAreEntries(entries[1..], run); }
  }

  // -------------------------------------------------------------------- approvals

  /** Nothing is shown of the call yet, or that it is open. */
  ghost predicate IsOpen(entries: seq<Entry>, id: string, run: string) {
    Recorded(entries, id, run) == None || Recorded(entries, id, run).value.status in {Pending, Approval}
  }

  lemma {:induction false} StaysOpen(base: seq<Entry>, entries: seq<Entry>, events: seq<Event>, run: string, id: string)
    requires Tidy(base, entries, run) && NoUsers(events) && IsOpen(entries, id, run)
    requires forall e :: e in events && IsAbout(e, id) ==> e.kind == ApprovalRequested
    ensures Tidy(base, ApplyAll(entries, events, run), run) && IsOpen(ApplyAll(entries, events, run), id, run)
    decreases |events|
  {
    hide Tidy, ApplyTrace, Recorded, IsAbout, UpdateOf, NextActivity;
    if events != [] {
      var e := events[0];
      assert e in events && forall x :: x in events[1..] ==> x in events;
      TraceRecords(base, entries, e, run, id);
      if IsAbout(e, id) { AboutSays(e, id, Recorded(entries, id, run)); }
      StaysOpen(base, ApplyTrace(entries, e, run), events[1..], run, id);
    }
  }

  /** A pending approval that nobody has decided is added as such. */
  lemma {:induction false} ApprovalIsAdded(base: seq<Entry>, entries: seq<Entry>, events: seq<Event>, approvals: seq<Call>, run: string, id: string)
    requires Tidy(base, entries, run) && IsOpen(entries, id, run) && !IsDecided(events, id)
    requires (exists call :: call in approvals && call.id == id)
             || (Recorded(entries, id, run).Some? && Recorded(entries, id, run).value.status == Approval)
    ensures var a := Recorded(AddApprovals(entries, events, approvals, run), id, run); a.Some? && a.value.status == Approval
    ensures Tidy(base, AddApprovals(entries, events, approvals, run), run)
    decreases |approvals|
  {
    hide Tidy, ApplyTrace, Recorded, IsDecided, UpdateOf, NextActivity;
    if approvals != [] {
      var e := BareEvent(ApprovalRequested).(approvalCall := Some(approvals[0]));
      TraceRecords(base, entries, e, run, id);
      if IsAbout(e, id) { AboutSays(e, id, Recorded(entries, id, run)); }
      var next := if ShowsApproval(entries, events, approvals[0].id, run) then ApplyTrace(entries, e, run) else entries;
      assert approvals == [approvals[0]] + approvals[1..];
      ApprovalIsAdded(base, next, events, approvals[1..], run, id);
    }
  }

  lemma {:induction false} RecordedIsOf(entries: seq<Entry>, id: string, run: string)
    ensures Recorded(entries, id, run).Some? ==> Recorded(entries, id, run).value.callId == id
  {
    if entries != [] { RecordedIsOf(entries[..|entries| - 1], id, run); }
  }

  /** A call that waits for approval, undecided and not taken up, is shown as waiting as long as the
      run is paused or running, and as canceled once the run is. */
  lemma ApprovalsAreShown(entries: seq<Entry>, run: Snapshot, call: Call)
    requires EventsOf(run) != [] && NoUsers(EventsOf(run)) && call in run.approvals
    requires !IsDecided(EventsOf(run), call.id)
    requires forall e :: e in EventsOf(run) && IsAbout(e, call.id) ==> e.kind == ApprovalRequested
    ensures var a := Recorded(Reconciled(entries, run), call.id, run.id);
            && a.Some?
            && (run.status == RunPaused || !Stopped(run) ==> a.value.status == Approval)
            && (run.status == RunCanceled ==> a.value.status == Canceled)
  {
    hide Tidy, Recorded, ApplyAll, Unseen, Others, FirstOf, IsAbout, NoneOf, AddApprovals, SettleAll, DropNotices, IsDecided;
    var id := call.id;
    var events := Unseen(EventsOf(run), {});
    var n := FirstOf(entries, run.id);
    var base, others := entries[..n], Others(entries[n..], run.id);
    FirstIsBase(entries, run.id);
    UnseenAreEvents(EventsOf(run), {});
    BaseIsTidy(base, run.id);
    NoneRecordedIn(base, id, run.id);
    StaysOpen(base, base, events, run.id, id);
    var result := ApplyAll(base, events, run.id);
    ApprovalIsAdded(base, result, EventsOf(run), run.approvals, run.id, id);
    var added := AddApprovals(result, EventsOf(run), run.approvals, run.id);
    RecordedIsOf(added, id, run.id);
    SettledRecord(added, run, id);
    NoneDropped(base, added, run);
    var settled := if Stopped(run) then SettleAll(added, run) else added;
    RecordedConcat(settled, NoticeOf(run), id, run.id);
    RecordedConcat(Finish(result, run), others, id, run.id);
  }

  lemma NoneRecordedIn(base: seq<Entry>, id: string, run: string)
    requires NoneOf(base, run)
    ensures Recorded(base, id, run) == None
  {
    BaseIsOthers(base, base, run);
    NoneRecorded(base, id, run);
  }

  // ------------------------------------------------------------------------- texts

  function Joined(deltas: seq<string>): string {
    if deltas == [] then "" else Joined(deltas[..|deltas| - 1]) + deltas[|deltas| - 1]
  }

  function Deltas(deltas: seq<string>): (events: seq<Event>)
    ensures |events| == |deltas|
    ensures forall i :: 0 <= i < |deltas| ==> events[i] == BareEvent(ChatDelta).(delta := deltas[i])
  {
    seq(|deltas|, i requires 0 <= i < |deltas| => BareEvent(ChatDelta).(delta := deltas[i]))
  }

  /** The pieces of a streamed text are shown joined, in one entry that still streams. */
  lemma {:induction false} DeltasAreJoined(base: seq<Entry>, deltas: seq<string>, run: string)
    requires NoneOf(base, run) && deltas != [] && forall d :: d in deltas ==> d != ""
    ensures var after := ApplyAll(base, Deltas(deltas), run);
            && |after| == |base| + 1 && after[..|base|] == base
            && after[|base|].text == Joined(deltas) && IsOf(after[|base|], run) && after[|base|].streaming
            && after[|base|].activity == None && after[|base|].role == "assistant"
    decreases |deltas|
  {
    hide ApplyDelta;
    var n := |deltas| - 1;
    var front, last := deltas[..n], BareEvent(ChatDelta).(delta := deltas[n]);
    assert Deltas(deltas) == Deltas(front) + [last] && deltas[n] in deltas;
    ApplyConcat(base, Deltas(front), [last], run);
    assert [last][1..] == [];
    var mid := ApplyAll(base, Deltas(front), run);
    if front != [] {
      assert forall d :: d in front ==> d in deltas;
      DeltasAreJoined(base, front, run);
    } else {
      assert Deltas(front) == [] && mid == base;
    }
    DeltaJoins(base, mid, front == [], deltas[n], run);
    assert front == [] ==> "" + deltas[n] == deltas[n];
  }

  lemma DeltaJoins(base: seq<Entry>, entries: seq<Entry>, first: bool, delta: string, run: string)
    requires NoneOf(base, run)
    requires if first then entries == base
             else |entries| == |base| + 1 && entries[..|base|] == base && IsOf(entries[|base|], run)
                  && entries[|base|].streaming && entries[|base|].activity == None
    ensures var after := ApplyDelta(entries, delta, run);
            && |after| == |base| + 1 && after[..|base|] == base && IsOf(after[|base|], run) && after[|base|].streaming
            && after[|base|].activity == None && after[|base|].role == "assistant"
            && after[|base|].text == (if first then "" else entries[|base|].text) + delta
  {
    if first && base != [] { assert base[|base| - 1] in base; }
  }

  /** The response that follows takes its place: one entry with the text of the response. */
  lemma ResponseTakesPlace(base: seq<Entry>, entries: seq<Entry>, r: Response, run: string)
    requires NoneOf(base, run) && |entries| == |base| + 1 && entries[..|base|] == base
    requires IsOf(entries[|base|], run) && entries[|base|].streaming && entries[|base|].activity == None
    requires r.message.text != "" && r.message.calls == []
    ensures var after := CompleteResponse(entries, r, run);
            && |after| == |base| + 1 && after[..|base|] == base && after[|base|].text == r.message.text
            && after[|base|].id == entries[|base|].id && !after[|base|].streaming && IsOf(after[|base|], run)
  {
    assert LastOf(entries, run) == |entries|;
    assert entries[..|entries|] == entries && entries[|entries|..] == [];
  }

  // -------------------------------------------------------- responses that come twice

  lemma LastTextPush(entries: seq<Entry>, e: Entry, run: string)
    requires IsOf(e, run) && e.activity == None && !e.notice
    ensures LastText(entries + [e], run) == Some(e)
  {
  }

  lemma {:induction false} LastTextStays(entries: seq<Entry>, more: seq<Entry>, run: string)
    requires forall e :: e in more ==> e.activity.Some?
    ensures LastText(entries + more, run) == LastText(entries, run)
    decreases |more|
  {
    if more == [] {
      assert entries + more == entries;
    } else {
      var n := |more| - 1;
      assert (entries + more)[..|entries + more| - 1] == entries + more[..n] && more[n] in more;
      LastTextStays(entries, more[..n], run);
    }
  }

  /** Adding the calls of a response puts entries of calls behind the others, and adds nothing when
      all are there. */
  lemma {:induction false} CallsAdded(base: seq<Entry>, entries: seq<Entry>, calls: seq<Call>, run: string)
    requires Tidy(base, entries, run)
    ensures var after := UpsertCalls(entries, calls, run);
            && entries <= after && (forall e :: e in after[|entries|..] ==> e.activity.Some? && IsOf(e, run))
            && (forall call :: call in calls ==> Recorded(after, call.id, run).Some?)
            && ((forall call :: call in calls ==> Recorded(entries, call.id, run).Some?) ==> after == entries)
    decreases |calls|
  {
    hide Tidy, Recorded, UpsertTool;
    if calls != [] {
      var u := Update(Pending, None, true, None, None, None, None);
      var next := UpsertTool(entries, calls[0], run, u);
      OneAdded(base, entries, calls[0], run, u);
      UpsertTidies(base, entries, calls[0], run, u);
      CallsAdded(base, next, calls[1..], run);
      var after := UpsertCalls(entries, calls, run);
      assert calls == [calls[0]] + calls[1..];
      CallsRecord(base, next, calls[1..], run, calls[0].id);
      assert after[|entries|..] == next[|entries|..] + after[|next|..];
    }
  }

  lemma OneAdded(base: seq<Entry>, entries: seq<Entry>, call: Call, run: string, u: Update)
    requires Tidy(base, entries, run) && u.preserve
    ensures var after := UpsertTool(entries, call, run, u);
            && entries <= after && (forall e :: e in after[|entries|..] ==> e.activity.Some? && IsOf(e, run))
            && Recorded(after, call.id, run).Some?
            && (Recorded(entries, call.id, run).Some? ==> after == entries)
  {
    hide NextActivity, NoneOf, Recorded, Extends;
    UpsertRecords(base, entries, call, run, u, call.id);
    PrefixOf(base, entries, run);
    TurnInBase(base, entries);
    BaseIsOthers(base, entries, run);
    LookedUp(entries, TurnStart(entries), call.id, run);
  }

  /** A response that says something is shown: after it some entry of the run that no longer streams
      holds its text, unless an entry of just this response was there before. */
  lemma ResponseIsShown(base: seq<Entry>, entries: seq<Entry>, r: Response, run: string)
    requires Tidy(base, entries, run) && r.message.role != "user" && r.message.text != ""
    ensures var after := CompleteResponse(entries, r, run);
            exists e :: e in after && IsOf(e, run) && !e.streaming
                        && (e.text == r.message.text || (r.id.Some? && e.id == Answer(entries, r, run).id))
  {
    hide Tidy, UpsertCalls, Extends, NoneOf;
    TidySize(base, entries, run);
    ResponseLeaves(base, entries, r, run);
    var after := CompleteResponse(entries, r, run);
    LastTextIsThere(after, run);
  }

  lemma {:induction false} LastTextIsThere(entries: seq<Entry>, run: string)
    ensures LastText(entries, run).Some? ==> LastText(entries, run).value in entries && IsOf(LastText(entries, run).value, run)
  {
    if entries != [] { LastTextIsThere(entries[..|entries| - 1], run); }
  }

  /** What is shown once the text of a response is, before its calls are added: the run's last text
      is this one, and its last entry no text that still streams. */
  lemma TextAnswered(base: seq<Entry>, entries: seq<Entry>, r: Response, run: string)
    requires Tidy(base, entries, run) && r.message.role != "user" && r.message.text != ""
    ensures var result := Placed(entries, r, run);
            var text := LastText(result, run);
            && Tidy(base, result, run) && |result| > |base| && IsOf(result[|result| - 1], run) && !StillStreams(result, run)
            && text.Some? && !text.value.streaming
            && (text.value.text == r.message.text || (r.id.Some? && text.value.id == Answer(entries, r, run).id))
            && (r.message.calls == [] ==> text == Some(result[|result| - 1])
                                          || (r.id.Some? && text.value.id == Answer(entries, r, run).id))
  {
    hide Tidy, UpsertCalls, Recorded, LastText, HasCall, Answer;
    PlacedAtEnd(base, entries, r, run);
    TidySize(base, entries, run);
    AnswerIsText(entries, r, run);
    var n, entry := |entries|, Answer(entries, r, run);
    if StillStreams(entries, run) {
      var shown := entry.(id := entries[n - 1].id);
      TextTaken(base, entries, run, "");
      TextPushed(base, entries[..n - 1], shown, run, "");
      LastTextPush(entries[..n - 1], shown, run);
    } else if !AlreadyCompleted(entries, r, run) {
      TextPushed(base, entries, entry, run, "");
      LastTextPush(entries, entry, run);
    } else {
      SomethingShown(base, entries, run);
      LastOfOwn(base, entries, run);
    }
  }

  lemma LastOfOwn(base: seq<Entry>, entries: seq<Entry>, run: string)
    requires Tidy(base, entries, run) && |entries| > |base|
    ensures LastOf(entries, run) == |entries|
  {
    hide Tidy;
    TidySize(base, entries, run);
  }

  /** What a response with a text leaves as the last text of the run. */
  lemma ResponseLeaves(base: seq<Entry>, entries: seq<Entry>, r: Response, run: string)
    requires Tidy(base, entries, run) && r.message.role != "user" && r.message.text != ""
    ensures var after := CompleteResponse(entries, r, run);
            var text := LastText(after, run);
            && Tidy(base, after, run) && text.Some? && !text.value.streaming
            && (text.value.text == r.message.text || (r.id.Some? && text.value.id == Answer(entries, r, run).id))
            && (forall call :: call in r.message.calls ==> Recorded(after, call.id, run).Some?)
  {
    hide *;
    var result := Placed(entries, r, run);
    PlacedAtEnd(base, entries, r, run);
    TextAnswered(base, entries, r, run);
    CallsAdded(base, result, r.message.calls, run);
    CallsRecord(base, result, r.message.calls, run, "");
    var after := UpsertCalls(result, r.message.calls, run);
    assert result + after[|result|..] == after;
    LastTextStays(result, after[|result|..], run);
  }

  /** The same response coming twice in a row is shown once. */
  lemma CompletedOnce(base: seq<Entry>, entries: seq<Entry>, r: Response, run: string)
    requires Tidy(base, entries, run) && r.message.role != "user" && r.message.text != "" && r.id.Some?
    ensures var after := CompleteResponse(entries, r, run); CompleteResponse(after, r, run) == after
  {
    hide Tidy, UpsertCalls, Recorded, LastText, CompleteResponse, Answer, HasCall, StillStreams, LastOf;
    var after := CompleteResponse(entries, r, run);
    ResponseLeaves(base, entries, r, run);
    ResponseEnds(base, entries, r, run);
    PlacedAtEnd(base, after, r, run);
    LastOfOwn(base, after, run);
    AnswersAgree(entries, after, r, run);
    CallsAdded(base, after, r.message.calls, run);
    forall call | call in r.message.calls ensures HasCall(after, call.id, run) { RecordedIsThere(after, call.id, run); }
  }

  lemma AnswersAgree(a: seq<Entry>, b: seq<Entry>, r: Response, run: string)
    requires r.id.Some?
    ensures Answer(a, r, run).id == Answer(b, r, run).id
  {
  }

  lemma {:induction false} RecordedIsThere(entries: seq<Entry>, call: string, run: string)
    ensures Recorded(entries, call, run).Some? ==> HasCall(entries, call, run)
  {
    if entries != [] {
      RecordedIsThere(entries[..|entries| - 1], call, run);
      assert entries == entries[..|entries| - 1] + [entries[|entries| - 1]];
    }
  }

  /** The transcript ends with entries of the run, its last one is no text that still streams, and
      without calls it is the last text. */
  lemma ResponseEnds(base: seq<Entry>, entries: seq<Entry>, r: Response, run: string)
    requires Tidy(base, entries, run) && r.message.role != "user" && r.message.text != ""
    ensures var after := CompleteResponse(entries, r, run);
            && |after| > |base| && IsOf(after[|after| - 1], run) && !StillStreams(after, run)
            && (r.message.calls == [] ==>
                  || LastText(after, run) == Some(after[|after| - 1])
                  || (r.id.Some? && LastText(after, run).Some? && LastText(after, run).value.id == Answer(entries, r, run).id))
  {
    hide *;
    var result := Placed(entries, r, run);
    PlacedAtEnd(base, entries, r, run);
    TextAnswered(base, entries, r, run);
    CallsAdded(base, result, r.message.calls, run);
    var after := UpsertCalls(result, r.message.calls, run);
    if |after| > |result| {
      var last := after[|after| - 1];
      assert after[|result|..][|after| - |result| - 1] == last;
      CallIsNoText(after, run);
    } else {
      assert after == result;
    }
    if r.message.calls == [] { NothingAdded(result, run); }
  }

  lemma CallIsNoText(entries: seq<Entry>, run: string)
    requires entries != [] && entries[|entries| - 1].activity.Some?
    ensures !StillStreams(entries, run)
  {
  }

  lemma NothingAdded(entries: seq<Entry>, run: string)
    ensures UpsertCalls(entries, [], run) == entries
  {
  }

  lemma SomethingShown(base: seq<Entry>, entries: seq<Entry>, run: string)
    requires Tidy(base, entries, run) && LastText(entries, run).Some?
    ensures |entries| > |base| && IsOf(entries[|entries| - 1], run)
  {
    ExtendsSize(base, entries, run);
    if |entries| == |base| {
      assert entries == base;
      NoTextOf(base, run);
    } else {
      OwnFrom(base, entries, run, |entries| - 1);
    }
  }

  // -------------------------------------------------------------- notices and calls

  /** After reconciling, each call of the run has one entry, and a notice is shown exactly for a run
      that was canceled or failed, once and behind its other entries. */
  lemma EachIsShownOnce(entries: seq<Entry>, run: Snapshot)
    requires EventsOf(run) != [] && NoUsers(EventsOf(run))
    ensures var n := FirstOf(entries, run.id);
            var shown := Finish(ApplyAll(entries[..n], Unseen(EventsOf(run), {}), run.id), run);
            && Reconciled(entries, run) == shown + Others(entries[n..], run.id)
            && (forall i, j :: n <= i < j < |shown| ==> !SameCall(shown[i], shown[j]))
            && (forall i :: n <= i < |shown| ==>
                  (shown[i].notice <==> i == |shown| - 1 && (run.status == RunCanceled || run.status == RunFailed)))
            && (run.status == RunCanceled || run.status == RunFailed ==> |shown| > n)
  {
    hide Tidy, AddApprovals, SettleAll, DropNotices, ApplyAll, Unseen, Others, FirstOf, NoneOf, NoticeOf, SameCall;
    var n := FirstOf(entries, run.id);
    var base, events := entries[..n], Unseen(EventsOf(run), {});
    FirstIsBase(entries, run.id);
    UnseenAreEvents(EventsOf(run), {});
    BaseIsTidy(base, run.id);
    EventsTidy(base, base, events, run.id, "");
    var result := ApplyAll(base, events, run.id);
    ApprovalsTidy(base, result, EventsOf(run), run.approvals, run.id);
    var added := AddApprovals(result, EventsOf(run), run.approvals, run.id);
    NoneDropped(base, added, run);
    TidyOnce(base, added, Finish(result, run), run);
    assert |base| == n;
  }

  lemma {:induction false} ApprovalsTidy(base: seq<Entry>, entries: seq<Entry>, events: seq<Event>, approvals: seq<Call>, run: string)
    requires Tidy(base, entries, run)
    ensures Tidy(base, AddApprovals(entries, events, approvals, run), run)
    decreases |approvals|
  {
    hide Tidy, ApplyTrace, ShowsApproval;
    if approvals != [] {
      var e := BareEvent(ApprovalRequested).(approvalCall := Some(approvals[0]));
      TraceRecords(base, entries, e, run, "");
      var next := if ShowsApproval(entries, events, approvals[0].id, run) then ApplyTrace(entries, e, run) else entries;
      ApprovalsTidy(base, next, events, approvals[1..], run);
    }
  }

  lemma TidyOnce(base: seq<Entry>, added: seq<Entry>, shown: seq<Entry>, run: Snapshot)
    requires Tidy(base, added, run.id)
    requires shown == (if Stopped(run) then SettleAll(added, run) else added) + NoticeOf(run)
    ensures forall i, j :: |base| <= i < j < |shown| ==> !SameCall(shown[i], shown[j])
    ensures forall i :: |base| <= i < |shown| ==>
              (shown[i].notice <==> i == |shown| - 1 && (run.status == RunCanceled || run.status == RunFailed))
    ensures run.status == RunCanceled || run.status == RunFailed ==> |shown| > |base|
  {
    hide Settled, Extends, NoneOf;
    ExtendsSize(base, added, run.id);
    var settled := if Stopped(run) then SettleAll(added, run) else added;
    forall i | |base| <= i < |added| ensures settled[i].notice == added[i].notice && SameCall(settled[i], settled[i]) == SameCall(added[i], added[i]) {
    }
    forall i, j | |base| <= i < j < |settled| ensures !SameCall(settled[i], settled[j]) {
      SettledCalls(added[i], run);
      SettledCalls(added[j], run);
      assert !SameCall(added[i], added[j]);
    }
  }

  lemma SettledCalls(e: Entry, run: Snapshot)
    ensures var out := SettledEntry(e, run);
            (out.activity.Some? <==> e.activity.Some?)
            && (e.activity.Some? ==> out.activity.value.callId == e.activity.value.callId)
  {
  }
}
