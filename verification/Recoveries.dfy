/** Recovery takes in everything behind a stored snapshot. Over every exclusive run, torn or not:
    the round budget and the tool protocol hold exactly when each recovery starts from a state
    in which that does no harm. */
module Recoveries {
  import opened Wrappers
  import opened Content
  import opened Runs
  import opened Recovery
  import opened Machine
  import opened Safety
  import opened Agreement
  import opened Replaying
  import opened Exclusive
  import opened Strategies
  import opened Protocol
  import opened Untorn
  import opened Budgets
  import opened Orphans

  // ---------------------------------------------------------------- control calls

  lemma SnapFits(strict: bool, d: Durable, request: Request)
    requires DFits(strict, d, request)
    ensures RunShape(strict, d.snap, request) && (Alive(d) ==> TailFits(strict, d.snap, d.journal))
  {
    hide RunShape, TailFits;
    assert Saved(d, d.snap);
  }

  /** A control call notes its event on the stored snapshot, which then has nothing behind it. */
  lemma NoteFits(strict: bool, d: Durable, e: Event, run: Run, jumped: set<nat>, request: Request)
    requires DFits(strict, d, request) && !IsProgressEvent(e)
    requires RunShape(strict, run, request) && (AliveRun(run) ==> run.applied == |d.journal| + 1)
    ensures FitWrites(strict, d, request, [Append(e), Save(run, jumped)])
  {
    hide RunShape, TailFits, AliveRun, FitWrites, EchoOk;
    SnapFits(strict, d, request);
    if Alive(d) { QuietTail(strict, d.snap, d.journal, e); }
    if AliveRun(run) { NoTail(strict, run, d.journal + [e]); }
    FitTwo(strict, d, request, Append(e), Save(run, jumped));
  }

  lemma {:induction false} LedgerFirstFits(strict: bool, d: Durable, first: seq<Write>, rest: seq<Write>, request: Request)
    requires forall w :: w in first ==> TouchesLedgerOnly(w) && FitWrite(strict, d, request, w)
    requires FitWrites(strict, ApplyAll(d, first), request, rest)
    ensures FitWrites(strict, d, request, first + rest)
    decreases |first|
  {
    hide TouchesLedgerOnly, FitWrite;
    if first == [] {
      assert first + rest == rest;
    } else {
      var d1 := Apply(d, first[0]);
      assert first[0] in first;
      forall w | w in first[1..] ensures TouchesLedgerOnly(w) && FitWrite(strict, d1, request, w) {
        assert w in first;
        LedgerFitsAnywhere(strict, d, d1, request, w);
      }
      LedgerFirstFits(strict, d1, first[1..], rest, request);
      FitCons(strict, d, request, first[0], first[1..] + rest);
      assert [first[0]] + (first[1..] + rest) == first + rest;
    }
  }

  lemma {:induction false} LedgerFirstKeeps(strict: bool, d: Durable, first: seq<Write>, request: Request)
    requires DFits(strict, d, request)
    requires forall w :: w in first ==> TouchesLedgerOnly(w) && FitWrite(strict, d, request, w)
    ensures DFits(strict, ApplyAll(d, first), request)
    decreases |first|
  {
    hide DFits, TouchesLedgerOnly, FitWrite, Apply;
    if first != [] {
      var d1 := Apply(d, first[0]);
      assert first[0] in first;
      FitWriteKeeps(strict, d, request, first[0]);
      forall w | w in first[1..] ensures TouchesLedgerOnly(w) && FitWrite(strict, d1, request, w) {
        assert w in first;
        LedgerFitsAnywhere(strict, d, d1, request, w);
      }
      LedgerFirstKeeps(strict, d1, first[1..], request);
    }
  }

  lemma ResolveFits(strict: bool, d: Durable, id: nat, call: string, number: nat, confirmed: Option<string>, request: Request)
    requires DFits(strict, d, request)
    ensures FitWrites(strict, d, request, ResolveWrites(d, id, call, number, confirmed))
  {
    hide DFits, FitWrites, AllResolved, RunShape;
    var ws := ResolveWrites(d, id, call, number, confirmed);
    if ws == [] {
      NoFitWrites(strict, d, request);
    } else {
      ResolveSplit(d, id, call, number, confirmed);
      ResolvedRow(strict, d, id, call, number, confirmed, request);
      FitWriteKeeps(strict, d, request, ws[0]);
      SnapFits(strict, d, request);
      var d1 := Apply(d, ws[0]);
      SameRunShape(strict, d.snap, ws[2].run, request);
      NoteFits(strict, d1, ws[1].event, ws[2].run, ws[2].jumped, request);
      FitCons(strict, d, request, ws[0], [ws[1], ws[2]]);
      assert [ws[0]] + [ws[1], ws[2]] == ws;
    }
  }

  lemma ResolvedRow(strict: bool, d: Durable, id: nat, call: string, number: nat, confirmed: Option<string>, request: Request)
    requires DFits(strict, d, request) && ResolveWrites(d, id, call, number, confirmed) != []
    ensures var ws := ResolveWrites(d, id, call, number, confirmed);
            && |ws| == 3 && ws[0].Resolve? && FitWrite(strict, d, request, ws[0]) && ws[1].Append? && ws[2].Save?
            && !IsProgressEvent(ws[1].event) && ws[2].run.applied == |d.journal| + 1 && SameWait(d.snap, ws[2].run)
            && ws[2].run.request == d.snap.request && ws[2].run.steps == d.snap.steps
            && ws[2].run.response == d.snap.response && ws[2].run.remaining == d.snap.remaining
  {
    hide RunShape, TailFits, AllResolved;
    var found := FindAttempt(d.ledger, call, number).value;
    if strict { assert EchoRow(found); }
  }

  lemma {:induction false} AbandonRows(strict: bool, d: Durable, rows: seq<Attempt>, request: Request)
    requires (strict ==> EchoOk(d.ledger)) && forall r :: r in rows ==> r in d.ledger
    ensures forall w :: w in AbandonPuts(d.ledger, rows) ==> TouchesLedgerOnly(w) && FitWrite(strict, d, request, w)
    decreases |rows|
  {
    if rows != [] {
      assert rows[0] in rows;
      AbandonRows(strict, d, rows[1..], request);
      assert strict ==> EchoRow(rows[0]);
    }
  }

  lemma AbandonFits(strict: bool, d: Durable, id: nat, request: Request)
    requires DFits(strict, d, request)
    ensures FitWrites(strict, d, request, AbandonWrites(d, id))
  {
    hide RunShape, TailFits, FitWrites, FitWrite, TouchesLedgerOnly, CanResume;
    if AbandonWrites(d, id) == [] {
      NoFitWrites(strict, d, request);
    } else {
      var first := AbandonPuts(d.ledger, d.ledger);
      var e := Stamp(BareEvent(ExecutionResolved), id, |d.journal| + 1);
      AbandonRows(strict, d, d.ledger, request);
      LedgerWritesKeepRun(d, first);
      LedgerFirstKeeps(strict, d, first, request);
      SnapFits(strict, d, request);
      SameRunShape(strict, d.snap, Noted(d.snap, e), request);
      NoteFits(strict, ApplyAll(d, first), e, Noted(d.snap, e), Passed(d), request);
      LedgerFirstFits(strict, d, first, [Append(e), Save(Noted(d.snap, e), Passed(d))], request);
    }
  }

  lemma EndsFit(strict: bool, d: Durable, id: nat, request: Request)
    requires DFits(strict, d, request)
    ensures FitWrites(strict, d, request, CancelWrites(d, id)) && FitWrites(strict, d, request, MarkFailedWrites(d, id))
  {
    hide DFits, RunShape, FitWrites, FailedBy;
    NoFitWrites(strict, d, request);
    SnapFits(strict, d, request);
    var e, f := Stamp(StopEvent(CanceledText), id, |d.journal| + 1), Stamp(StopEvent(FailedText), id, |d.journal| + 1);
    SameRunShape(strict, d.snap, CanceledBy(d.snap, e), request);
    NoteFits(strict, d, e, CanceledBy(d.snap, e), Passed(d), request);
    FailedShape(strict, d.snap, f, request);
    NoteFits(strict, d, f, FailedBy(d.snap, f), Passed(d), request);
  }

  lemma PauseRequestFits(strict: bool, d: Durable, request: Request)
    requires DFits(strict, d, request) && d.snap.status == Running
    ensures FitWrites(strict, d, request, [Save(d.snap.(pauseRequest := true), {})])
  {
    hide RunShape, EchoOk, FitsRun;
    var run := d.snap.(pauseRequest := true);
    SnapFits(strict, d, request);
    SameRunShape(strict, d.snap, run, request);
    ShorterTail(strict, d.snap, run, d.journal);
    FitOne(strict, d, request, Save(run, {}));
  }

  // --------------------------------------------------------------------- recovery

  /** The responses recorded in a stretch of the journal. */
  function ChatsIn(journal: seq<Event>, from: nat, end: nat): nat
    requires from <= end <= |journal|
    decreases end
  {
    if end == from then 0 else ChatsIn(journal, from, end - 1) + if journal[end - 1].kind == ChatCompleted then 1 else 0
  }

  /** The responses of the snapshot, those behind it, and the rounds left after the last of them
      stay within the budget. */
  predicate InBudget(d: Durable, max: nat) {
    d.snap.status == Running ==>
      && d.snap.applied <= |d.journal|
      && Round(d.snap.steps) + ChatsIn(d.journal, d.snap.applied, |d.journal|)
         + RemainingFrom(d.journal, d.snap.applied, |d.journal|, d.snap.remaining) <= max + 1
  }

  /** At most one response, result or error stands behind the snapshot. */
  ghost predicate AtMostOne(d: Durable) {
    d.snap.status == Running ==>
      forall i, j :: d.snap.applied <= i < j < |d.journal| ==> !(IsProgressEvent(d.journal[i]) && IsProgressEvent(d.journal[j]))
  }

  lemma {:induction false} KeptCounts(journal: seq<Event>, p: seq<Step>, from: nat, end: nat, max: nat)
    requires from <= end <= |journal| && JournalOk(journal, max)
    ensures Round(p + Kept(journal, from, end, {})) == Round(p) + ChatsIn(journal, from, end)
    decreases end
  {
    var kept := Kept(journal, from, end, {});
    if end == from {
      assert p + kept == p;
    } else {
      KeptCounts(journal, p, from, end - 1, max);
      var e, q := journal[end - 1], p + Kept(journal, from, end - 1, {});
      assert EventOk(e, max);
      if IsProgressEvent(e) {
        assert p + kept == q + [ProgressOf(e).value];
        assert (p + kept)[..|q|] == q;
      } else {
        assert p + kept == q;
      }
    }
  }

  lemma {:induction false} KeptComeFrom(journal: seq<Event>, from: nat, end: nat, m: nat)
    requires from <= end <= |journal| && m < |Kept(journal, from, end, {})|
    ensures exists i :: from <= i < end && IsProgressEvent(journal[i]) && Kept(journal, from, end, {})[m] == ProgressOf(journal[i]).value
    decreases end
  {
    var before := Kept(journal, from, end - 1, {});
    if m < |before| {
      KeptComeFrom(journal, from, end - 1, m);
    } else {
      assert IsProgressEvent(journal[end - 1]);
    }
  }

  lemma {:induction false} NoChatsIn(journal: seq<Event>, from: nat, end: nat)
    requires from <= end <= |journal| && forall i :: from <= i < end ==> journal[i].kind != ChatCompleted
    ensures ChatsIn(journal, from, end) == 0
    decreases end
  {
    if end > from { NoChatsIn(journal, from, end - 1); }
  }

  lemma {:induction false} NoResponseIn(journal: seq<Event>, from: nat, end: nat, before: Option<Response>, max: nat)
    requires from <= end <= |journal| && JournalOk(journal, max) && ResponseFrom(journal, from, end, before) == None
    ensures ChatsIn(journal, from, end) == 0 && before == None
    decreases end
  {
    if end > from {
      assert EventOk(journal[end - 1], max);
      NoResponseIn(journal, from, end - 1, before, max);
    }
  }

  /** What recovery restores, told from the snapshot and what stands behind it. */
  lemma RestoredIs(d: Durable, request: Request)
    requires DurableOk(d, request)
    ensures var (run, error) := Restore(d.snap, d.journal); var n := |d.journal|;
            && d.snap.applied <= n && error == None && run.request == request && run.applied == n
            && Progress(run.steps) == Progress(d.snap.steps) + Kept(d.journal, d.snap.applied, n, {})
            && run.response == ResponseFrom(d.journal, d.snap.applied, n, d.snap.response)
            && run.remaining == RemainingFrom(d.journal, d.snap.applied, n, d.snap.remaining)
            && Round(run.steps) == Round(d.snap.steps) + ChatsIn(d.journal, d.snap.applied, n)
  {
    hide Restore, Kept, Progress, Round, JournalOk;
    SavedReplays(d, d.snap, request);
    RestoreBuilds(d.snap, d.journal, request.maxToolRounds);
    ProgressCounts(d.snap.steps);
    ProgressCounts(Restore(d.snap, d.journal).0.steps);
    KeptCounts(d.journal, Progress(d.snap.steps), d.snap.applied, |d.journal|, request.maxToolRounds);
  }

  /** Results behind a snapshot belong to a round that the budget allows. */
  lemma LastIsAllowed(strict: bool, d: Durable, request: Request)
    requires JournalOk(d.journal, request.maxToolRounds) && RunShape(strict, d.snap, request) && TailFits(strict, d.snap, d.journal)
    ensures var p := Progress(d.snap.steps) + Kept(d.journal, d.snap.applied, |d.journal|, {});
            p != [] && IsToolStep(p[|p| - 1]) ==> Round(p) <= request.maxToolRounds
  {
    hide InProtocol, Round, LastChat, Progress, AwaitsReply, Complete, Pending, AnswerOk, ReplyOk;
    var n, from := |d.journal|, d.snap.applied;
    var kept := Kept(d.journal, from, n, {});
    var p := Progress(d.snap.steps) + kept;
    if kept == [] {
      assert p == Progress(d.snap.steps);
    } else if IsToolStep(p[|p| - 1]) {
      assert p[|p| - 1] == kept[|kept| - 1];
      KeptComeFrom(d.journal, from, n, |kept| - 1);
      var i :| from <= i < n && IsProgressEvent(d.journal[i]) && kept[|kept| - 1] == ProgressOf(d.journal[i]).value;
      assert FitsRun(strict, d.snap, d.journal[i]) && d.journal[i].kind != ChatCompleted;
      forall j | from <= j < n ensures d.journal[j].kind != ChatCompleted {
        assert EventOk(d.journal[j], request.maxToolRounds);
      }
      NoChatsIn(d.journal, from, n);
      KeptCounts(d.journal, Progress(d.snap.steps), from, n, request.maxToolRounds);
    }
  }

  /** Recovery from a state in budget, and in protocol where asked, restores a run in shape. */
  lemma RestoredFits(strict: bool, d: Durable, request: Request)
    requires DurableOk(d, request) && DFits(strict, d, request) && d.snap.status == Running && InBudget(d, request.maxToolRounds)
    requires strict ==> InProtocol(Progress(d.snap.steps) + Kept(d.journal, d.snap.applied, |d.journal|, {}))
    ensures RunShape(strict, Restore(d.snap, d.journal).0, request) && Restore(d.snap, d.journal).0.status != Paused
  {
    hide InProtocol, Round, LastChat, Progress, TailFits, Restore, Kept, EchoOk, Faithful, Pending;
    var max, from, n := request.maxToolRounds, d.snap.applied, |d.journal|;
    var run := Restore(d.snap, d.journal).0;
    RestoredIs(d, request);
    SnapFits(strict, d, request);
    LastIsAllowed(strict, d, request);
    LastChatFrom(d.journal, Progress(d.snap.steps), from, n, max);
    RemainingMonotone(d.journal, from, n, d.snap.remaining, d.snap.remaining, max);
    ResponseMeans(d.journal, from, n, d.snap.response, d.snap.remaining, max);
    if run.response == None { NoResponseIn(d.journal, from, n, d.snap.response, max); }
    ProgressCounts(run.steps);
    ProgressCounts(d.snap.steps);
    RestoreStatus(d.snap, d.journal);
  }

  // ------------------------------------------------ at most one event left behind

  /** With at most one progress event behind a snapshot, replay adds none or just that one. */
  lemma {:induction false} KeptOfOne(journal: seq<Event>, from: nat, end: nat)
    requires from <= end <= |journal|
    requires forall i, j :: from <= i < j < end ==> !(IsProgressEvent(journal[i]) && IsProgressEvent(journal[j]))
    ensures var kept := Kept(journal, from, end, {});
            if exists i :: from <= i < end && IsProgressEvent(journal[i]) then
              exists i :: from <= i < end && IsProgressEvent(journal[i]) && kept == [ProgressOf(journal[i]).value]
            else kept == []
    decreases end
  {
    if end > from {
      KeptOfOne(journal, from, end - 1);
      if IsProgressEvent(journal[end - 1]) {
        KeptQuiet(journal, from, end - 1);
        assert Kept(journal, from, end, {}) == [ProgressOf(journal[end - 1]).value];
      } else {
        assert Kept(journal, from, end, {}) == Kept(journal, from, end - 1, {});
      }
    }
  }

  lemma {:induction false} KeptSize(journal: seq<Event>, from: nat, end: nat)
    requires from <= end <= |journal|
    ensures |Kept(journal, from, end, {})| <= 1 ==>
              forall i, j :: from <= i < j < end ==> !(IsProgressEvent(journal[i]) && IsProgressEvent(journal[j]))
    decreases end
  {
    if end > from {
      KeptSize(journal, from, end - 1);
      if |Kept(journal, from, end, {})| <= 1 && IsProgressEvent(journal[end - 1]) {
        forall i | from <= i < end - 1 ensures !IsProgressEvent(journal[i]) {
          if IsProgressEvent(journal[i]) { SomeKept(journal, from, end - 1, i); }
        }
      }
    }
  }

  lemma {:induction false} SomeKept(journal: seq<Event>, from: nat, end: nat, i: nat)
    requires from <= i < end <= |journal| && IsProgressEvent(journal[i])
    ensures Kept(journal, from, end, {}) != []
    decreases end
  {
    if i < end - 1 { SomeKept(journal, from, end - 1, i); }
  }

  /** One event that fits a run keeps its protocol; a second one breaks it. */
  lemma OneStepFits(run: Run, e: Event, request: Request)
    requires RunShape(true, run, request) && FitsRun(true, run, e) && IsProgressEvent(e)
    ensures InProtocol(Progress(run.steps) + [ProgressOf(e).value])
  {
    hide InProtocol, Complete, Pending, LastChat, Progress, Round, AwaitsReply, AnswerOk, ReplyOk;
    var p, s := Progress(run.steps), ProgressOf(e).value;
    if e.kind == ChatCompleted { PushChat(p, s); } else { PushTool(p, s); }
  }

  lemma TwoStepsBreak(run: Run, e: Event, f: Event, request: Request)
    requires RunShape(true, run, request) && FitsRun(true, run, e) && FitsRun(true, run, f)
    requires IsProgressEvent(e) && IsProgressEvent(f) && (e.kind == ChatCompleted <==> f.kind == ChatCompleted)
    ensures !InProtocol(Progress(run.steps) + [ProgressOf(e).value] + [ProgressOf(f).value])
  {
    hide InProtocol, Progress, Round, AwaitsReply, LastChat, Pending, ReplyOk;
    var p, s, t := Progress(run.steps), ProgressOf(e).value, ProgressOf(f).value;
    if e.kind == ChatCompleted {
      PushChat(p, s);
      PushChat(p + [s], t);
    } else {
      PushTool(p, s);
      PushTool(p + [s], t);
      PendingIs(p);
      var pending, calls := Pending(p), CallsOf(LastChat(p));
      if |pending| > 1 {
        var m := |calls| - |pending|;
        assert CallIds(calls)[m] == pending[0].id && CallIds(calls)[m + 1] == pending[1].id;
      }
    }
  }

  /** Recovery keeps the tool protocol exactly when at most one event was left behind. */
  lemma RestoredProtocol(d: Durable, request: Request)
    requires DFits(true, d, request) && d.snap.status == Running && d.snap.applied <= |d.journal|
    ensures InProtocol(Progress(d.snap.steps) + Kept(d.journal, d.snap.applied, |d.journal|, {})) <==> AtMostOne(d)
  {
    hide InProtocol, Progress, RunShape, FitsRun, EchoOk, Kept;
    var p, from, n := Progress(d.snap.steps), d.snap.applied, |d.journal|;
    var kept := Kept(d.journal, from, n, {});
    SnapFits(true, d, request);
    if AtMostOne(d) {
      KeptOfOne(d.journal, from, n);
      if kept == [] {
        assert p + kept == p;
        SnapProtocol(d.snap, request);
      } else {
        var i :| from <= i < n && IsProgressEvent(d.journal[i]) && kept == [ProgressOf(d.journal[i]).value];
        OneStepFits(d.snap, d.journal[i], request);
      }
    } else {
      KeptSize(d.journal, from, n);
      KeptComeFrom(d.journal, from, n, 0);
      KeptComeFrom(d.journal, from, n, 1);
      var i :| from <= i < n && IsProgressEvent(d.journal[i]) && kept[0] == ProgressOf(d.journal[i]).value;
      var j :| from <= j < n && IsProgressEvent(d.journal[j]) && kept[1] == ProgressOf(d.journal[j]).value;
      TwoStepsBreak(d.snap, d.journal[i], d.journal[j], request);
      assert (p + kept)[..|p| + 2] == p + [kept[0]] + [kept[1]];
      if InProtocol(p + kept) { ProtocolPrefix(p + kept, |p| + 2); }
    }
  }

  lemma SnapProtocol(run: Run, request: Request)
    requires RunShape(true, run, request)
    ensures InProtocol(Progress(run.steps))
  {
  }

  /** One event left behind never takes recovery over the budget. */
  lemma OneIsInBudget(strict: bool, d: Durable, request: Request)
    requires DurableOk(d, request) && DFits(strict, d, request) && d.snap.status == Running && AtMostOne(d)
    ensures InBudget(d, request.maxToolRounds)
  {
    hide InProtocol, LastChat, Progress, AwaitsReply, Complete, Pending, AnswerOk, ReplyOk, EchoOk, Faithful;
    var from, n, max := d.snap.applied, |d.journal|, request.maxToolRounds;
    SnapFits(strict, d, request);
    ProgressCounts(d.snap.steps);
    if i :| from <= i < n && IsProgressEvent(d.journal[i]) {
      OneLeft(d.journal, from, i, n, d.snap.remaining, max);
      assert FitsRun(strict, d.snap, d.journal[i]);
    } else {
      NoChatEvents(d.journal, from, n, max);
      NoChatsIn(d.journal, from, n);
      RemainingQuiet(d.journal, from, n, d.snap.remaining, max);
    }
  }

  lemma NoChatEvents(journal: seq<Event>, from: nat, end: nat, max: nat)
    requires from <= end <= |journal| && JournalOk(journal, max)
    requires forall i :: from <= i < end ==> !IsProgressEvent(journal[i])
    ensures forall i :: from <= i < end ==> journal[i].kind != ChatCompleted
  {
    forall i | from <= i < end ensures journal[i].kind != ChatCompleted { assert EventOk(journal[i], max); }
  }

  lemma {:induction false} OneLeft(journal: seq<Event>, from: nat, i: nat, end: nat, before: int, max: nat)
    requires from <= i < end <= |journal| && JournalOk(journal, max)
    requires forall j :: from <= j < end && j != i ==> !IsProgressEvent(journal[j])
    ensures ChatsIn(journal, from, end) == if journal[i].kind == ChatCompleted then 1 else 0
    ensures RemainingFrom(journal, from, end, before)
            == if journal[i].kind == ChatCompleted && journal[i].remaining.Some? then journal[i].remaining.value else before
    decreases end
  {
    assert EventOk(journal[end - 1], max);
    if end == i + 1 {
      NoChatEvents(journal, from, i, max);
      NoChatsIn(journal, from, i);
      RemainingQuiet(journal, from, i, before, max);
    } else {
      OneLeft(journal, from, i, end - 1, before, max);
    }
  }

  // ----------------------------------------------------------------- recovery steps

  /** What recovery asks of the state it starts from. */
  ghost predicate SafeToRecover(strict: bool, d: Durable, max: nat) {
    if strict then AtMostOne(d) else InBudget(d, max)
  }

  lemma SafeRestores(strict: bool, d: Durable, request: Request)
    requires DurableOk(d, request) && DFits(strict, d, request) && d.snap.status == Running
    requires SafeToRecover(strict, d, request.maxToolRounds)
    ensures RunShape(strict, Restore(d.snap, d.journal).0, request) && Restore(d.snap, d.journal).0.status != Paused
  {
    hide RunShape, DFits, Restore, InBudget, AtMostOne, DurableOk, InProtocol, Kept;
    if strict {
      RestoredIs(d, request);
      OneIsInBudget(strict, d, request);
      RestoredProtocol(d, request);
    }
    RestoredFits(strict, d, request);
  }

  lemma SuspendTailFits(strict: bool, d: Durable, id: nat, cause: PauseCause, request: Request)
    requires DurableOk(d, request) && DFits(strict, d, request) && d.snap.status == Running
    requires RunShape(strict, Restore(d.snap, d.journal).0, request) && Restore(d.snap, d.journal).0.status != Paused
    ensures FitWrites(strict, d, request, SuspendTail(d, id, cause))
  {
    hide RunShape, TailFits, FitWrites, Inspect, Restore, DFits, Faithful, Range;
    RestoredIs(d, request);
    InspectRestores(d.snap, d.journal, Some(d.ledger));
    var (run, eligible, checkpoint) := Inspect(d.snap, d.journal, Some(d.ledger));
    if run.status != Running {
      FitOne(strict, d, request, Save(run, {}));
    } else {
      var e := Stamp(BareEvent(RunPaused), id, |d.journal| + 1);
      var paused := Noted(run, e).(status := Paused, stop := None, pause := Some(Pause(cause, checkpoint, eligible)));
      SameRunShape(strict, run, paused, request);
      NoteFits(strict, d, e, paused, Range(run.applied, |d.journal|), request);
    }
  }

  lemma {:induction false} UnknownRows(strict: bool, d: Durable, rows: seq<Attempt>, request: Request)
    requires strict ==> EchoOk(rows)
    ensures forall w :: w in UnknownPuts(rows) ==> TouchesLedgerOnly(w) && FitWrite(strict, d, request, w)
    decreases |rows|
  {
    if rows != [] {
      assert strict ==> EchoRow(rows[0]);
      assert forall r :: r in rows[1..] ==> r in rows;
      UnknownRows(strict, d, rows[1..], request);
    }
  }

  /** A completed recovery from a safe state is sound; and so is any that a crash cuts short of
      its last write, whatever it starts from. */
  lemma SuspendFits(strict: bool, d: Durable, id: nat, cause: PauseCause, request: Request)
    requires DurableOk(d, request) && DFits(strict, d, request)
    ensures var ws := SuspendWrites(d, id, cause);
            && (SafeToRecover(strict, d, request.maxToolRounds) ==> FitWrites(strict, d, request, ws))
            && (ws != [] ==> FitWrites(strict, d, request, ws[..|ws| - 1]))
  {
    hide DFits, RunShape, FitWrites, FitWrite, TouchesLedgerOnly, Inspect, DurableOk, SafeToRecover, Restore;
    if d.snap.status != Running {
      NoFitWrites(strict, d, request);
    } else {
      var first := UnknownPuts(d.ledger);
      LedgerEchoes(strict, d, request);
      UnknownRows(strict, d, d.ledger, request);
      LedgerWritesKeepRun(d, first);
      LedgerFirstKeeps(strict, d, first, request);
      var d1 := ApplyAll(d, first);
      DurableAfterLedger(d, first, request);
      SuspendSplit(d, id, cause);
      var tail := SuspendTail(d1, id, cause);
      if SafeToRecover(strict, d, request.maxToolRounds) {
        SameSafety(strict, d, d1, request.maxToolRounds);
        SafeRestores(strict, d1, request);
        SuspendTailFits(strict, d1, id, cause, request);
        LedgerFirstFits(strict, d, first, tail, request);
      }
      SuspendTailCut(strict, d1, id, cause, request);
      LedgerFirstFits(strict, d, first, tail[..|tail| - 1], request);
      assert (first + tail)[..|first + tail| - 1] == first + tail[..|tail| - 1];
    }
  }

  lemma LedgerEchoes(strict: bool, d: Durable, request: Request)
    requires DFits(strict, d, request)
    ensures strict ==> EchoOk(d.ledger)
  {
  }

  lemma SameSafety(strict: bool, a: Durable, b: Durable, max: nat)
    requires SafeToRecover(strict, a, max) && a.snap == b.snap && a.journal == b.journal
    ensures SafeToRecover(strict, b, max)
  {
  }

  lemma {:induction false} DurableAfterLedger(d: Durable, ws: seq<Write>, request: Request)
    requires DurableOk(d, request) && forall w :: w in ws ==> TouchesLedgerOnly(w)
    ensures DurableOk(ApplyAll(d, ws), request)
    decreases |ws|
  {
    hide Faithful, JournalOk, Spent;
    if ws != [] {
      assert ws[0] in ws;
      assert forall s :: Saved(Apply(d, ws[0]), s) ==> Saved(d, s);
      DurableAfterLedger(Apply(d, ws[0]), ws[1..], request);
    }
  }

  lemma SuspendTailCut(strict: bool, d: Durable, id: nat, cause: PauseCause, request: Request)
    requires DFits(strict, d, request) && d.snap.status == Running
    ensures var tail := SuspendTail(d, id, cause); tail != [] && FitWrites(strict, d, request, tail[..|tail| - 1])
  {
    hide RunShape, TailFits, FitWrites, Inspect, Range, DFits;
    var tail := SuspendTail(d, id, cause);
    SnapFits(strict, d, request);
    NoFitWrites(strict, d, request);
    if |tail| == 2 {
      QuietTail(strict, d.snap, d.journal, tail[0].event);
      FitOne(strict, d, request, tail[0]);
      assert tail[..1] == [tail[0]];
    }
  }

  // ----------------------------------------------------------------------- worlds

  ghost predicate WorldFits(strict: bool, w: World, request: Request) {
    DFits(strict, w.d, request) && forall c :: c in w.copies ==> CFits(strict, w.d, c, request)
  }

  /** A recovery whose last write, the restored snapshot, gets through. */
  predicate Recovers(w: World, runId: string, step: Label) {
    step.op.Suspend? && Surviving(OpWrites(w, runId, step.op), step) == OpWrites(w, runId, step.op)
  }

  lemma FitCopy(strict: bool, w: World, i: nat, request: Request)
    requires WorldInStep(w, request) && WorldFits(strict, w, request) && i < |w.copies|
    ensures Fit(strict, w.d, w.copies[i], w.nextId, request)
  {
    hide DurableOk, DFits, CFits, LiveOk, IdsBelow;
    assert w.copies[i] in w.copies;
  }

  lemma OpFits(strict: bool, w: World, runId: string, op: Op, request: Request)
    requires WorldInStep(w, request) && WorldFits(strict, w, request) && !op.Suspend? && (strict ==> Sane(w, op))
    ensures FitWrites(strict, w.d, request, OpWrites(w, runId, op))
    ensures op.Act? && op.copy < |w.copies| ==>
              FitSegment(strict, w.d, request, ActSegment(w.d, w.copies[op.copy], w.nextId, runId, op.action))
  {
    hide DurableOk, DFits, IdsBelow, FitWrites, ActSegment, LiveOk, CFits, Fit, GoodReply, CancelWrites, MarkFailedWrites, ResolveWrites, AbandonWrites;
    var d, id := w.d, w.nextId;
    NoFitWrites(strict, d, request);
    match op
    case Load =>
    case RequestPause => if d.snap.status == Running { PauseRequestFits(strict, d, request); }
    case Cancel => EndsFit(strict, d, id, request);
    case ResolveExecution(call, number, confirmed) => ResolveFits(strict, d, id, call, number, confirmed, request);
    case Abandon => AbandonFits(strict, d, id, request);
    case MarkFailed => EndsFit(strict, d, id, request);
    case Act(i, action) =>
      if i < |w.copies| {
        FitCopy(strict, w, i, request);
        ActFits(strict, d, w.copies[i], id, runId, action, request);
      }
  }

  /** A pause request or a cancel leaves a running copy as it is. */
  lemma CopyStays(strict: bool, d: Durable, c: Live, id: nat, request: Request)
    requires CFits(strict, d, c, request)
    ensures CFits(strict, ApplyAll(d, CancelWrites(d, id)), c, request)
    ensures d.snap.status == Running ==> CFits(strict, Apply(d, Save(d.snap.(pauseRequest := true), {})), c, request)
  {
    hide RunShape, PcShape, TailClean, Progress;
    var ws := CancelWrites(d, id);
    if ws != [] {
      assert ws == [ws[0], ws[1]];
      ApplyTwo(d, ws[0], ws[1]);
    }
  }

  lemma LoadedFits(strict: bool, d: Durable, request: Request)
    requires DFits(strict, d, request)
    ensures CFits(strict, d, Stored(d), request)
  {
    hide RunShape, TailFits;
    SnapFits(strict, d, request);
  }

  lemma CopiesFit(strict: bool, w: World, runId: string, op: Op, request: Request)
    requires WorldInStep(w, request) && WorldFits(strict, w, request) && Alone(w, op) && (strict ==> Sane(w, op))
    ensures forall c :: c in OpCopies(w, runId, op) ==> CFits(strict, ApplyAll(w.d, OpWrites(w, runId, op)), c, request)
  {
    hide DurableOk, DFits, CFits, IdsBelow, LiveOk, ActSegment, FitWrites, Sane, CancelWrites;
    var d := w.d;
    match op
    case Load => LoadedFits(strict, d, request);
    case RequestPause =>
      forall c | c in w.copies ensures CFits(strict, ApplyAll(d, OpWrites(w, runId, op)), c, request) {
        CopyStays(strict, d, c, w.nextId, request);
        ApplyOne(d, Save(d.snap.(pauseRequest := true), {}));
      }
    case Cancel =>
      forall c | c in w.copies ensures CFits(strict, ApplyAll(d, OpWrites(w, runId, op)), c, request) {
        CopyStays(strict, d, c, w.nextId, request);
      }
    case Act(i, action) =>
      if i < |w.copies| {
        OpFits(strict, w, runId, op, request);
        assert |w.copies| == 1;
      }
    case _ =>
  }

  lemma StepFits(strict: bool, w: World, runId: string, step: Label, request: Request)
    requires WorldInStep(w, request) && WorldFits(strict, w, request) && Alone(w, step.op) && (strict ==> Sane(w, step.op))
    requires Recovers(w, runId, step) ==> SafeToRecover(strict, w.d, request.maxToolRounds)
    ensures WorldFits(strict, Next(w, runId, step), request)
  {
    hide DurableOk, DFits, CFits, IdsBelow, LiveOk, Sane, OpCopies, Surviving, FitWrites, Alone, SafeToRecover, SuspendWrites;
    var ws := OpWrites(w, runId, step.op);
    SurvivingIsPrefix(ws, step);
    var k :| 0 <= k <= |ws| && Surviving(ws, step) == ws[..k];
    if step.op.Suspend? {
      SuspendFits(strict, w.d, w.nextId, step.op.cause, request);
      assert ws[..|ws|] == ws;
      if Recovers(w, runId, step) {
        FitWritesKeep(strict, w.d, request, ws, |ws|);
      } else {
        FitWritesKeep(strict, w.d, request, ws[..|ws| - 1], k);
        assert ws[..|ws| - 1][..k] == ws[..k];
      }
    } else {
      OpFits(strict, w, runId, step.op, request);
      FitWritesKeep(strict, w.d, request, ws, k);
    }
    if step.cut == None {
      Completes(ws, step);
      CopiesFit(strict, w, runId, step.op, request);
    }
  }

  lemma Completes(ws: seq<Write>, step: Label)
    requires step.cut == None
    ensures Surviving(ws, step) == ws
  {
  }

  lemma StartFits(strict: bool, request: Request)
    ensures WorldFits(strict, StartWorld(request), request)
  {
  }

  /** Every recovery up to step k starts from a safe state. */
  ghost predicate SafeRecoveries(strict: bool, ws: seq<World>, runId: string, steps: seq<Label>, k: nat, max: nat)
    requires k <= |steps| < |ws|
  {
    forall i {:trigger steps[i]} :: 0 <= i < k && Recovers(ws[i], runId, steps[i]) ==> SafeToRecover(strict, ws[i].d, max)
  }

  lemma {:induction false} RunsFit(strict: bool, ws: seq<World>, request: Request, runId: string, steps: seq<Label>, k: nat)
    requires ExclusiveRun(ws, request, runId, steps) && (strict ==> SaneRun(ws, steps)) && k < |ws|
    requires SafeRecoveries(strict, ws, runId, steps, k, request.maxToolRounds)
    ensures WorldFits(strict, ws[k], request) && WorldInStep(ws[k], request)
    decreases k
  {
    hide WorldInStep, WorldFits, Next, Alone, Sane, SafeToRecover, Recovers;
    RunsInStep(ws, request, runId, steps, k);
    if k > 0 {
      RunsFit(strict, ws, request, runId, steps, k - 1);
      RunsInStep(ws, request, runId, steps, k - 1);
      StepFits(strict, ws[k - 1], runId, steps[k - 1], request);
    } else {
      StartFits(strict, request);
    }
  }

  // ------------------------------------------------------------------ main results

  /** A completed recovery of a running run stores the progress and the rounds left it restored. */
  lemma RecoveryStores(w: World, runId: string, step: Label, request: Request)
    requires WorldInStep(w, request) && Recovers(w, runId, step) && w.d.snap.status == Running
    ensures var stored, restored := Next(w, runId, step).d.snap, Restore(w.d.snap, w.d.journal).0;
            stored.steps == restored.steps && stored.remaining == restored.remaining
  {
    hide Restore, Inspect, Range, DurableOk;
    var d, cause := w.d, step.op.cause;
    var first := UnknownPuts(d.ledger);
    UnknownPutsTouch(d.ledger);
    LedgerWritesKeepRun(d, first);
    SuspendSplit(d, w.nextId, cause);
    var d1 := ApplyAll(d, first);
    InspectRestores(d.snap, d.journal, Some(d1.ledger));
    ApplyConcat(d, first, SuspendTail(d1, w.nextId, cause));
    TailStores(d1, w.nextId, cause);
  }

  lemma TailStores(d: Durable, id: nat, cause: PauseCause)
    ensures var run := Inspect(d.snap, d.journal, Some(d.ledger)).0; var stored := ApplyAll(d, SuspendTail(d, id, cause)).snap;
            stored.steps == run.steps && stored.remaining == run.remaining
  {
    hide Inspect, Range;
    var ws := SuspendTail(d, id, cause);
    if |ws| == 1 {
      ApplyOne(d, ws[0]);
    } else {
      assert ws == [ws[0], ws[1]];
      ApplyTwo(d, ws[0], ws[1]);
    }
  }

  /** In every snapshot ever stored, the responses and the rounds left are within the budget, and
      so is every round whose tools ran. */
  ghost predicate BudgetKept(ws: seq<World>, max: nat) {
    && (forall k, s :: 0 <= k < |ws| && Saved(ws[k].d, s) ==> 0 <= s.remaining && Round(s.steps) + s.remaining <= max + 1)
    && (forall k, x :: 0 <= k < |ws| && x in ws[k].d.sent ==> x.round <= max)
  }

  /** Round budget over every exclusive run, whatever crashes cut: the responses recorded in a
      stored run plus the rounds it has left, which are never negative, never exceed
      max_tool_rounds + 1, and tools run in the first max_tool_rounds rounds only, exactly when
      every completed recovery starts from a state in budget. So at most max_tool_rounds + 1
      responses are recorded then. */
  lemma RoundsStayInBudget(ws: seq<World>, request: Request, runId: string, steps: seq<Label>)
    requires ExclusiveRun(ws, request, runId, steps)
    ensures BudgetKept(ws, request.maxToolRounds)
            <==> SafeRecoveries(false, ws, runId, steps, |steps|, request.maxToolRounds)
  {
    hide Next, Alone, Recovers, WorldInStep, WorldFits, InBudget, Restore, StartWorld;
    assert |ws| == |steps| + 1;
    var max := request.maxToolRounds;
    if SafeRecoveries(false, ws, runId, steps, |steps|, max) {
      forall k | 0 <= k < |ws| ensures WorldFits(false, ws[k], request) {
        RunsFit(false, ws, request, runId, steps, k);
      }
      FitsKeepBudget(ws, request);
    }
    if BudgetKept(ws, max) {
      forall i {:trigger steps[i]} | 0 <= i < |steps| && Recovers(ws[i], runId, steps[i]) ensures InBudget(ws[i].d, max) {
        RecoveryNeedsBudget(ws, request, runId, steps, i);
      }
    }
  }

  lemma FitsKeepBudget(ws: seq<World>, request: Request)
    requires forall k :: 0 <= k < |ws| ==> WorldFits(false, ws[k], request)
    ensures BudgetKept(ws, request.maxToolRounds)
  {
    hide CFits, TailFits;
    forall k, s | 0 <= k < |ws| && Saved(ws[k].d, s) ensures 0 <= s.remaining && Round(s.steps) + s.remaining <= request.maxToolRounds + 1 {
      assert RunShape(false, s, request);
      ProgressCounts(s.steps);
    }
  }

  lemma RecoveryNeedsBudget(ws: seq<World>, request: Request, runId: string, steps: seq<Label>, i: nat)
    requires ExclusiveRun(ws, request, runId, steps) && BudgetKept(ws, request.maxToolRounds)
    requires i < |steps| && Recovers(ws[i], runId, steps[i])
    ensures InBudget(ws[i].d, request.maxToolRounds)
  {
    hide Next, Alone, Recovers, DurableOk, Restore;
    RunsInStep(ws, request, runId, steps, i);
    if ws[i].d.snap.status == Running {
      RecoveryStores(ws[i], runId, steps[i], request);
      RestoredIs(ws[i].d, request);
      assert ws[i + 1] == Next(ws[i], runId, steps[i]) && Saved(ws[i + 1].d, ws[i + 1].d.snap);
      ProgressCounts(Restore(ws[i].d.snap, ws[i].d.journal).0.steps);
    }
  }

  /** Every snapshot ever stored, and every copy ever held, follows the tool protocol. */
  ghost predicate ProtocolKept(ws: seq<World>) {
    && (forall k, s :: 0 <= k < |ws| && Saved(ws[k].d, s) ==> InProtocol(Progress(s.steps)))
    && (forall k, c :: 0 <= k < |ws| && c in ws[k].copies ==> InProtocol(Progress(c.run.steps)))
  }

  /** Tool protocol over every exclusive run with sane inputs: the results of a round are always
      a prefix, in order, of its calls, and a round is complete before the next one, exactly when
      every completed recovery finds at most one event behind the snapshot it starts from. */
  lemma TranscriptStaysInProtocol(ws: seq<World>, request: Request, runId: string, steps: seq<Label>)
    requires ExclusiveRun(ws, request, runId, steps) && SaneRun(ws, steps)
    ensures ProtocolKept(ws) <==> SafeRecoveries(true, ws, runId, steps, |steps|, request.maxToolRounds)
  {
    hide IsRun, Next, Alone, Sane, Recovers, WorldInStep, WorldFits, AtMostOne;
    if SafeRecoveries(true, ws, runId, steps, |steps|, request.maxToolRounds) {
      forall k | 0 <= k < |ws| ensures WorldFits(true, ws[k], request) {
        RunsFit(true, ws, request, runId, steps, k);
      }
      FitsKeepProtocol(ws, request);
    }
    if ProtocolKept(ws) { ProtocolNeedsOne(ws, request, runId, steps, |steps|); }
  }

  lemma FitsKeepProtocol(ws: seq<World>, request: Request)
    requires forall k :: 0 <= k < |ws| ==> WorldFits(true, ws[k], request)
    ensures ProtocolKept(ws)
  {
    hide TailFits, Follows, InProtocol, Progress;
    forall k, s | 0 <= k < |ws| && Saved(ws[k].d, s) ensures InProtocol(Progress(s.steps)) {
      assert RunShape(true, s, request);
    }
  }

  lemma {:induction false} ProtocolNeedsOne(ws: seq<World>, request: Request, runId: string, steps: seq<Label>, k: nat)
    requires ExclusiveRun(ws, request, runId, steps) && SaneRun(ws, steps) && ProtocolKept(ws) && k <= |steps|
    ensures SafeRecoveries(true, ws, runId, steps, k, request.maxToolRounds)
    decreases k
  {
    hide IsRun, Next, Alone, Sane, Recovers, WorldInStep, WorldFits, AtMostOne, InProtocol;
    if k > 0 {
      ProtocolNeedsOne(ws, request, runId, steps, k - 1);
      RunsFit(true, ws, request, runId, steps, k - 1);
      if Recovers(ws[k - 1], runId, steps[k - 1]) { RecoveryNeedsOne(ws, request, runId, steps, k - 1); }
    }
  }

  lemma RecoveryNeedsOne(ws: seq<World>, request: Request, runId: string, steps: seq<Label>, i: nat)
    requires ExclusiveRun(ws, request, runId, steps) && ProtocolKept(ws) && i < |steps| && Recovers(ws[i], runId, steps[i])
    requires WorldFits(true, ws[i], request) && WorldInStep(ws[i], request)
    ensures AtMostOne(ws[i].d)
  {
    hide Next, Alone, Recovers, DurableOk, DFits, CFits, Restore, InProtocol, Progress, Kept;
    if ws[i].d.snap.status == Running {
      RecoveryStores(ws[i], runId, steps[i], request);
      RestoredIs(ws[i].d, request);
      RestoredProtocol(ws[i].d, request);
      assert ws[i + 1] == Next(ws[i], runId, steps[i]) && Saved(ws[i + 1].d, ws[i + 1].d.snap);
    }
  }

  /** At every point of an exclusive run with sane inputs, up to which each recovery found at most
      one event behind its snapshot: the organizer returns the transcript of a copy unchanged
      exactly when it returns the request's messages unchanged and no call of the last response
      is left without a result. None is left when the model is asked again after a round, nor
      when the run stops with FINISHED; some are when it stops with TOOL_ROUNDS_EXHAUSTED. And a
      copy that has ended the run holds it as done exactly when no call is left and no tool error
      broke it off. */
  lemma TranscriptSurvivesRuns(ws: seq<World>, request: Request, runId: string, steps: seq<Label>, k: nat, live: Live)
    requires ExclusiveRun(ws, request, runId, steps) && SaneRun(ws, steps) && k < |ws| && live in ws[k].copies
    requires SafeRecoveries(true, ws, runId, steps, k, request.maxToolRounds)
    ensures var left := IncompleteCalls(CallsOf(live.run.response), CompletedIds(live.run.steps));
            && Organized(Transcript(live.run)) == Organized(request.messages) + Answered(Progress(live.run.steps))
            && (Survives(Transcript(live.run)) <==> Survives(request.messages) && left == [])
            && (live.pc.Chatting? ==> left == [])
            && (live.pc == Stopping && live.run.stop == Some(StopReason.Finished) ==> left == [])
            && (live.pc == Stopping && live.run.stop == Some(RoundsExhausted) ==> left != [])
            && (live.pc == Ended && live.run.status in {Done, Failed} ==>
                  && (live.run.status == Done <==> left == [] && live.run.stop != Some(StopReason.ToolError))
                  && (live.run.stop == Some(RoundsExhausted) ==> left != []))
  {
    hide WorldInStep, DFits, ExclusiveRun, SaneRun, SafeRecoveries, Survives, Organized, Answered, InProtocol, Shape, LastChat, Pending, CompletedIds, IncompleteCalls, Progress;
    RunsFit(true, ws, request, runId, steps, k);
    ProtocolOfCopy(ws[k].d, live, request);
    ProgressCounts(live.run.steps);
    IncompleteIsPending(Progress(live.run.steps));
    TranscriptSurvives(live.run);
    OnlyOpenRoundIsLost(live.run);
    NothingPending();
    ThreeReasons(live.run.stop);
  }

  lemma ThreeReasons(stop: Option<StopReason>)
    ensures stop == None || stop == Some(StopReason.Finished) || stop == Some(RoundsExhausted) || stop == Some(StopReason.ToolError)
  {
    if stop.Some? {
      match stop.value
      case Finished =>
      case RoundsExhausted =>
      case ToolError =>
    }
  }

  lemma NothingPending()
    ensures Pending([]) == []
  {
  }

  lemma ProtocolOfCopy(d: Durable, c: Live, request: Request)
    requires CFits(true, d, c, request)
    ensures c.run.request == request && InProtocol(Progress(c.run.steps)) && c.run.response == LastChat(Progress(c.run.steps))
    ensures PcShape(true, c.run, c.pc)
  {
    hide PcShape, Follows;
  }
}
