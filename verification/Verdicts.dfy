/** How a run ended, over every exclusive run: the stop event in the journal, the stored snapshot
    and the live copy say the same, replay restores it, and nothing undoes it. */
module Verdicts {
  import opened Wrappers
  import opened Content
  import opened Runs
  import opened Recovery
  import opened Ledger
  import opened Machine
  import opened Safety
  import opened Agreement
  import opened Replaying
  import opened Exclusive

  predicate IsStopped(run: Run) {
    run.status == Done || run.status == Failed || run.status == Canceled
  }

  /** The text of the last stop event between two positions that was not skipped. */
  function LastStop(journal: seq<Event>, from: nat, end: nat, skipped: set<nat>): Option<StopText>
    requires from <= end <= |journal|
    decreases end
  {
    if end == from then None
    else if journal[end - 1].kind == RunStopped && end - 1 !in skipped then Some(journal[end - 1].stop)
    else LastStop(journal, from, end - 1, skipped)
  }

  /** What a stop event says about the run: FINISHED and nothing else ends it well. */
  predicate EndsAs(run: Run, text: StopText) {
    match text
    case StopBy(reason) =>
      run.stop == Some(reason) && run.status == if reason == StopReason.Finished then Done else Failed
    case FailedText => run.status == Failed && run.stop == None
    case CanceledText => run.status == Canceled && run.stop == None
    case OtherText => false
  }

  /** A run with a stop event has ended as that says, and one without has not ended. */
  predicate Judged(run: Run, verdict: Option<StopText>) {
    if verdict == None then !IsStopped(run) else EndsAs(run, verdict.value)
  }

  /** Every response, result and error recorded carries the id of its event. */
  predicate Stamped(steps: seq<Step>) {
    forall s :: s in steps && IsProgress(s) ==> s.eventId.Some?
  }

  ghost predicate View(run: Run, journal: seq<Event>, skipped: set<nat>) {
    run.applied <= |journal| && Judged(run, LastStop(journal, 0, run.applied, skipped)) && Stamped(run.steps)
  }

  predicate StampsKept(a: Run, b: Run) {
    Stamped(a.steps) ==> Stamped(b.steps)
  }

  lemma StampedPush(steps: seq<Step>, s: Step)
    requires !IsProgress(s) || s.eventId.Some?
    ensures Stamped(steps) ==> Stamped(steps + [s])
  {
  }

  lemma StampedTouch(steps: seq<Step>, kind: StepKind, id: nat)
    ensures Stamped(steps) ==> Stamped(Touch(steps, kind, id))
  {
    if steps != [] && steps[|steps| - 1].kind == kind {
      assert forall s :: s in steps[..|steps| - 1] ==> s in steps;
    }
  }

  predicate SameEnd(a: Run, b: Run) {
    a.status == b.status && a.stop == b.stop
  }

  /** A change that neither ends nor revives a run. */
  predicate EndKept(a: Run, b: Run) {
    SameEnd(a, b) || (!IsStopped(a) && !IsStopped(b))
  }

  lemma {:induction false} LastStopFrame(a: seq<Event>, b: seq<Event>, from: nat, end: nat, s: set<nat>, t: set<nat>)
    requires from <= end <= |a| && a <= b && forall i: nat :: from <= i < end ==> (i in s <==> i in t)
    ensures LastStop(a, from, end, s) == LastStop(b, from, end, t)
    decreases end
  {
    if end > from { LastStopFrame(a, b, from, end - 1, s, t); }
  }

  lemma {:induction false} LastStopSkips(journal: seq<Event>, from: nat, mid: nat, end: nat, skipped: set<nat>)
    requires from <= mid <= end <= |journal| && forall i: nat :: mid <= i < end ==> i in skipped
    ensures LastStop(journal, from, end, skipped) == LastStop(journal, from, mid, skipped)
    decreases end
  {
    if end > mid { LastStopSkips(journal, from, mid, end - 1, skipped); }
  }

  lemma {:induction false} LastStopSplits(journal: seq<Event>, from: nat, mid: nat, end: nat, skipped: set<nat>)
    requires from <= mid <= end <= |journal|
    ensures LastStop(journal, from, end, skipped)
            == if LastStop(journal, mid, end, skipped).Some? then LastStop(journal, mid, end, skipped)
               else LastStop(journal, from, mid, skipped)
    decreases end
  {
    if end > mid { LastStopSplits(journal, from, mid, end - 1, skipped); }
  }

  // ---------------------------------------------------------------- the invariant

  /** A copy, or a snapshot about to be saved, and the positions it has passed over. */
  ghost predicate CanSave(d: Durable, run: Run, jumped: set<nat>) {
    && View(run, d.journal, d.skipped + jumped) && d.snap.applied <= run.applied
    && (forall i :: i in jumped ==> i in d.skipped || d.snap.applied <= i < run.applied)
    && (IsStopped(d.snap) ==> SameEnd(run, d.snap))
  }

  ghost predicate Recorded(d: Durable) {
    && (forall s :: Saved(d, s) ==> View(s, d.journal, d.skipped) && s.applied <= d.snap.applied)
    && (forall i :: i in d.skipped ==> i < d.snap.applied)
  }

  ghost predicate CopyFits(d: Durable, c: Live) {
    d.snap.status == Canceled || (CanSave(d, c.run, c.jumped) && (InLoop(c.pc) ==> c.run.status == Running))
  }

  ghost predicate Fits(d: Durable, w: Write) {
    w.Save? ==> CanSave(d, w.run, w.jumped)
  }

  ghost predicate AllFit(d: Durable, ws: seq<Write>)
    decreases |ws|
  {
    ws == [] || (Fits(d, ws[0]) && AllFit(Apply(d, ws[0]), ws[1..]))
  }

  ghost predicate SegmentFits(d: Durable, seg: Segment) {
    AllFit(d, seg.writes) && (seg.next.Some? ==> CopyFits(ApplyAll(d, seg.writes), seg.next.value))
  }

  lemma ViewFrame(run: Run, a: seq<Event>, b: seq<Event>, s: set<nat>, t: set<nat>)
    requires View(run, a, s) && a <= b && forall i: nat :: i < run.applied ==> (i in s <==> i in t)
    ensures View(run, b, t)
  {
    LastStopFrame(a, b, 0, run.applied, s, t);
  }

  lemma FitKeeps(d: Durable, w: Write)
    requires Recorded(d) && Fits(d, w)
    ensures Recorded(Apply(d, w)) && (IsStopped(d.snap) ==> SameEnd(Apply(d, w).snap, d.snap))
  {
    hide View, IsStopped;
    var after := Apply(d, w);
    forall s | Saved(after, s) ensures View(s, after.journal, after.skipped) && s.applied <= after.snap.applied {
      if w.Append? || w.Save? {
        if Saved(d, s) { ViewFrame(s, d.journal, after.journal, d.skipped, after.skipped); }
      } else {
        assert Saved(d, s);
      }
    }
  }

  lemma {:induction false} FitsKeep(d: Durable, ws: seq<Write>, k: nat)
    requires k <= |ws| && Recorded(d) && AllFit(d, ws)
    ensures var after := ApplyAll(d, ws[..k]);
            Recorded(after) && (IsStopped(d.snap) ==> SameEnd(after.snap, d.snap))
    decreases |ws|
  {
    hide Recorded, Fits;
    if k > 0 {
      FitKeeps(d, ws[0]);
      FitsKeep(Apply(d, ws[0]), ws[1..], k - 1);
      assert ws[..k][1..] == ws[1..][..k - 1];
    }
  }

  lemma FitOne(d: Durable, a: Write)
    requires Fits(d, a)
    ensures AllFit(d, [a])
  {
    assert [a][1..] == [];
  }

  lemma FitTwo(d: Durable, a: Write, b: Write)
    requires Fits(d, a) && Fits(Apply(d, a), b)
    ensures AllFit(d, [a, b])
  {
    assert [a, b][1..] == [b];
    FitOne(Apply(d, a), b);
  }

  lemma {:induction false} LedgerFits(d: Durable, first: seq<Write>, rest: seq<Write>)
    requires forall w :: w in first ==> TouchesLedgerOnly(w)
    requires AllFit(ApplyAll(d, first), rest)
    ensures AllFit(d, first + rest)
    decreases |first|
  {
    if first == [] {
      assert first + rest == rest;
    } else {
      assert first[0] in first;
      LedgerFits(Apply(d, first[0]), first[1..], rest);
      assert (first + rest)[1..] == first[1..] + rest;
    }
  }

  // ------------------------------------------------------------------ noting events

  /** A run that notes the next event: it ends by a stop event, and keeps its end otherwise. */
  ghost predicate Notes(a: Run, b: Run, e: Event) {
    StampsKept(a, b) && if e.kind == RunStopped then EndsAs(b, e.stop) else EndKept(a, b)
  }

  lemma NoteView(d: Durable, a: Run, jumped: set<nat>, e: Event, b: Run)
    requires Recorded(d) && CanSave(d, a, jumped) && !IsStopped(d.snap)
    requires b.applied == |d.journal| + 1 && Notes(a, b, e)
    ensures CanSave(Apply(d, Append(e)), b, jumped + Range(a.applied, |d.journal|))
  {
    hide Judged, IsStopped, EndsAs;
    var all, wide := d.skipped + jumped, d.skipped + (jumped + Range(a.applied, |d.journal|));
    var after := d.journal + [e];
    LastStopFrame(d.journal, after, 0, a.applied, all, wide);
    LastStopSkips(after, 0, a.applied, |d.journal|, wide);
    assert after[|d.journal|] == e && |d.journal| !in wide;
    NotesJudged(a, b, e, LastStop(d.journal, 0, a.applied, all));
  }

  lemma NotesJudged(a: Run, b: Run, e: Event, verdict: Option<StopText>)
    requires Judged(a, verdict) && Notes(a, b, e)
    ensures Judged(b, if e.kind == RunStopped then Some(e.stop) else verdict)
  {
  }

  lemma NotesStamped(a: Run, run: Run, e: Event, id: nat, n: nat, b: Run)
    requires Notes(a, run, e) && SameEnd(run, b) && b.steps == run.steps
    ensures Notes(a, b, Stamp(e, id, n))
  {
  }

  /** A copy that keeps its end may be saved as it stands. */
  lemma KeptView(d: Durable, a: Run, jumped: set<nat>, b: Run)
    requires CanSave(d, a, jumped) && EndKept(a, b) && StampsKept(a, b) && b.applied == a.applied
    requires IsStopped(d.snap) ==> SameEnd(a, b)
    ensures CanSave(d, b, jumped)
  {
    hide LastStop;
  }

  lemma StoredCanSave(d: Durable)
    requires Recorded(d)
    ensures CanSave(d, d.snap, {})
  {
    assert Saved(d, d.snap);
    assert d.skipped + {} == d.skipped;
  }

  /** What a copy saved is what the durable side then holds of it. */
  lemma SavedCopy(d: Durable, run: Run, jumped: set<nat>)
    requires CanSave(d, run, jumped)
    ensures CanSave(Apply(d, Save(run, jumped)), run, jumped)
  {
    assert d.skipped + jumped + jumped == d.skipped + jumped;
  }

  /** An event appended and a run saved that notes it, on from a copy or a stored snapshot. */
  lemma NoteFits(d: Durable, a: Run, jumped: set<nat>, e: Event, b: Run)
    requires Recorded(d) && CanSave(d, a, jumped) && !IsStopped(d.snap)
    requires b.applied == |d.journal| + 1 && Notes(a, b, e)
    ensures var wide := jumped + Range(a.applied, |d.journal|);
            AllFit(d, [Append(e), Save(b, wide)]) && CanSave(ApplyAll(d, [Append(e), Save(b, wide)]), b, wide)
  {
    hide CanSave, Range, Notes, IsStopped;
    var wide := jumped + Range(a.applied, |d.journal|);
    NoteView(d, a, jumped, e, b);
    FitTwo(d, Append(e), Save(b, wide));
    SavedCopy(Apply(d, Append(e)), b, wide);
    ApplyTwo(d, Append(e), Save(b, wide));
  }

  // ------------------------------------------------------------------ one operation

  lemma PersistFits(d: Durable, live: Live, run: Run, e: Event, id: nat, pc: Pc)
    requires Recorded(d) && CopyFits(d, live) && run.applied == live.run.applied && Notes(live.run, run, e)
    requires (InLoop(pc) ==> run.status == Running) && (InLoop(live.pc) || !IsStopped(live.run))
    ensures SegmentFits(d, Persist(d, live, run, e, id, pc))
  {
    hide CanSave, Recorded, AllFit, Range, Notes, IsStopped;
    NothingFits(d);
    if d.snap.status != Canceled {
      AliveBehind(d, live);
      var n := |d.journal|;
      var stamped := Stamp(e, id, n + 1);
      var wide := Jumped(d, live);
      var noted := Noted(run, stamped);
      if PausesAt(d, run, e.kind) {
        PauseFits(d, live, run, e, id);
      } else {
        var saved := if d.snap.status == Running && d.snap.pauseRequest && noted.status == Running
                     then noted.(pauseRequest := true) else noted;
        NotesStamped(live.run, run, e, id, n + 1, saved);
        NoteFits(d, live.run, live.jumped, stamped, saved);
      }
    }
  }

  lemma NothingFits(d: Durable)
    ensures AllFit(d, []) && ApplyAll(d, []) == d
  {
  }

  /** A copy in the loop stands behind a snapshot that has not ended. */
  lemma AliveBehind(d: Durable, live: Live)
    requires CopyFits(d, live) && d.snap.status != Canceled && (InLoop(live.pc) || !IsStopped(live.run))
    ensures !IsStopped(d.snap) && !IsStopped(live.run)
  {
    hide View;
  }

  lemma PauseFits(d: Durable, live: Live, run: Run, e: Event, id: nat)
    requires Recorded(d) && CopyFits(d, live) && d.snap.status != Canceled && !IsStopped(d.snap)
    requires run.applied == live.run.applied && Notes(live.run, run, e) && run.status == Running && e.kind != RunStopped
    ensures var n, wide := |d.journal|, Jumped(d, live);
            var stamped, p := Stamp(e, id, n + 1), Stamp(BareEvent(RunPaused), id + 1, n + 2);
            var paused := PausedAt(Noted(run, stamped), e.kind, p);
            SegmentFits(d, Segment([Append(stamped), Append(p), Save(paused, wide), Save(paused, wide)],
                                   Some(Live(paused, Ended, false, wide))))
  {
    hide CanSave, AllFit, Range, Recorded;
    var n, wide := |d.journal|, Jumped(d, live);
    var stamped, p := Stamp(e, id, n + 1), Stamp(BareEvent(RunPaused), id + 1, n + 2);
    var noted := Noted(run, stamped);
    var paused := PausedAt(noted, e.kind, p);
    var d1 := Apply(d, Append(stamped));
    NoteView(d, live.run, live.jumped, stamped, noted);
    FitKeeps(d, Append(stamped));
    NoteView(d1, noted, wide, p, paused);
    NoneBetween(n + 1, wide);
    var d2 := Apply(d1, Append(p));
    SavedCopy(d2, paused, wide);
    var d3 := Apply(d2, Save(paused, wide));
    SavedCopy(d3, paused, wide);
    FitTwo(d2, Save(paused, wide), Save(paused, wide));
    TwoMore(d, Append(stamped), Append(p), Save(paused, wide), Save(paused, wide));
  }

  lemma NoneBetween(n: nat, wide: set<nat>)
    ensures wide + Range(n, n) == wide
  {
  }

  lemma TwoMore(d: Durable, a: Write, b: Write, x: Write, y: Write)
    requires Fits(d, a) && Fits(Apply(d, a), b) && AllFit(Apply(Apply(d, a), b), [x, y])
    ensures AllFit(d, [a, b, x, y])
    ensures ApplyAll(d, [a, b, x, y]) == Apply(Apply(Apply(Apply(d, a), b), x), y)
  {
    hide Fits, Apply;
    assert [a, b, x, y][1..] == [b, x, y] && [b, x, y][1..] == [x, y];
    ApplyThree(Apply(d, a), b, x, y);
  }

  lemma SilentFits(d: Durable, live: Live, next: Live)
    requires CopyFits(d, live) && next.run.applied == live.run.applied && next.jumped == live.jumped
    requires EndKept(live.run, next.run) && StampsKept(live.run, next.run) && (InLoop(next.pc) ==> next.run.status == Running)
    requires SameEnd(live.run, next.run) || !IsStopped(live.run)
    ensures SegmentFits(d, Segment([], Some(next)))
  {
    hide View;
    if d.snap.status != Canceled {
      assert IsStopped(d.snap) ==> IsStopped(live.run);
      ViewOfSame(d, live, next);
    }
  }

  lemma ViewOfSame(d: Durable, live: Live, next: Live)
    requires View(live.run, d.journal, d.skipped + live.jumped) && next.run.applied == live.run.applied
    requires next.jumped == live.jumped && EndKept(live.run, next.run) && StampsKept(live.run, next.run)
    ensures View(next.run, d.journal, d.skipped + next.jumped)
  {
    hide LastStop;
  }

  lemma SaveFits(d: Durable, live: Live)
    requires CopyFits(d, live) && d.snap.status != Canceled
    ensures var save := Save(live.run, live.jumped); AllFit(d, [save]) && AllFit(d, [save, save])
  {
    hide CanSave;
    var save := Save(live.run, live.jumped);
    SavedCopy(d, live.run, live.jumped);
    FitOne(d, save);
    FitTwo(d, save, save);
  }

  lemma FailFits(d: Durable, live: Live, id: nat)
    requires Recorded(d) && CopyFits(d, live)
    ensures AllFit(d, FailWrites(d, live, id))
  {
    hide CanSave, Recorded, AllFit, Range;
    NothingFits(d);
    if d.snap.status != Canceled {
      SaveFits(d, live);
      if live.run.status == Running { FailRunningFits(d, live, id); }
    }
  }

  lemma FailRunningFits(d: Durable, live: Live, id: nat)
    requires Recorded(d) && CanSave(d, live.run, live.jumped) && live.run.status == Running
    ensures var e := Stamp(StopEvent(FailedText), id, |d.journal| + 1);
            AllFit(d, [Save(live.run, live.jumped), Append(e), Save(FailedBy(live.run, e), Jumped(d, live))])
  {
    hide CanSave, Recorded, AllFit, Range;
    var e := Stamp(StopEvent(FailedText), id, |d.journal| + 1);
    var save := Save(live.run, live.jumped);
    var d1 := Apply(d, save);
    FitKeeps(d, save);
    SavedCopy(d, live.run, live.jumped);
    NoteFits(d1, live.run, live.jumped, e, FailedBy(live.run, e));
    OneMore(d, save, [Append(e), Save(FailedBy(live.run, e), Jumped(d, live))]);
    assert [save] + [Append(e), Save(FailedBy(live.run, e), Jumped(d, live))]
           == [save, Append(e), Save(FailedBy(live.run, e), Jumped(d, live))];
  }

  lemma OneMore(d: Durable, w: Write, ws: seq<Write>)
    requires Fits(d, w) && AllFit(Apply(d, w), ws)
    ensures AllFit(d, [w] + ws)
  {
    assert ([w] + ws)[1..] == ws;
  }

  lemma FinallyFits(d: Durable, live: Live)
    requires CopyFits(d, live)
    ensures AllFit(d, FinallyWrites(d, live))
  {
    hide CanSave;
    NothingFits(d);
    if d.snap.status !in {Canceled, Failed} { SaveFits(d, live); }
  }

  lemma OpeningFits(d: Durable, live: Live, id: nat, action: Action)
    requires Recorded(d) && CopyFits(d, live)
    ensures SegmentFits(d, OpeningSegment(d, live, id, action))
  {
    hide Recorded, CopyFits, AllFit, Persist, FailWrites, Resume, Responded, ChatEvent;
    NothingFits(d);
    match action
    case Begin =>
      if live.pc == Loaded {
        if Resume(live) == None { FailFits(d, live, id); } else { ResumeFits(d, live); }
      }
    case StartRun =>
      if live.pc == Fresh {
        var s := BareStep(StartStep).(eventId := Some(id));
        StampedPush(live.run.steps, s);
        PersistNoted(d, live, live.run.(steps := live.run.steps + [s]), BareEvent(RunStarted), id,
                     Chatting(live.run.request.maxToolRounds));
      }
    case Delta(text) =>
      if live.pc.Chatting? { DeltaFits(d, live, id, text); }
    case Respond(response) =>
      if live.pc.Chatting? {
        RespondedKeeps(live.run, response, id);
        PersistNoted(d, live, Responded(live.run, response, id), ChatEvent(live.run, response), id,
                     Calling(response.message.calls, live.pc.left));
      }
    case _ =>
  }

  lemma LoopRuns(d: Durable, live: Live)
    requires CopyFits(d, live) && d.snap.status != Canceled && InLoop(live.pc)
    ensures live.run.status == Running
  {
  }

  lemma RespondedKeeps(run: Run, response: Response, id: nat)
    ensures var next := Responded(run, response, id); SameEnd(run, next) && next.applied == run.applied && StampsKept(run, next)
    ensures ChatEvent(run, response).kind == ChatCompleted
  {
  }

  /** Persisting any other event of a copy in the loop that goes on. */
  lemma PersistNoted(d: Durable, live: Live, run: Run, e: Event, id: nat, pc: Pc)
    requires Recorded(d) && CopyFits(d, live) && InLoop(live.pc) && e.kind != RunStopped && StampsKept(live.run, run)
    requires run.applied == live.run.applied && (run.status == live.run.status || (run.status == Paused && !InLoop(pc)))
    ensures SegmentFits(d, Persist(d, live, run, e, id, pc))
  {
    hide Recorded, CanSave, SegmentFits;
    if d.snap.status == Canceled {
      CanceledPersist(d, live, run, e, id, pc);
    } else {
      LoopRuns(d, live);
      PersistFits(d, live, run, e, id, pc);
    }
  }

  lemma CanceledPersist(d: Durable, live: Live, run: Run, e: Event, id: nat, pc: Pc)
    requires d.snap.status == Canceled
    ensures SegmentFits(d, Persist(d, live, run, e, id, pc))
  {
  }

  lemma DeltaFits(d: Durable, live: Live, id: nat, text: string)
    requires Recorded(d) && CopyFits(d, live) && live.pc.Chatting?
    ensures SegmentFits(d, OpeningSegment(d, live, id, Delta(text)))
  {
    hide Recorded, CanSave, Range, IsStopped;
    if d.snap.status != Canceled {
      var e := Stamp(BareEvent(ChatDelta), id, |d.journal| + 1);
      AliveBehind(d, live);
      NoteView(d, live.run, live.jumped, e, Noted(live.run, e));
      FitOne(d, Append(e));
      ApplyOne(d, Append(e));
    }
  }

  lemma ResumeFits(d: Durable, live: Live)
    requires CopyFits(d, live) && Resume(live).Some?
    ensures SegmentFits(d, Segment([], Resume(live)))
  {
    hide CopyFits, SegmentFits, IncompleteCalls, CompletedIds;
    SilentFits(d, live, Resume(live).value);
  }

  lemma CallFits(d: Durable, live: Live, id: nat, action: Action)
    requires Recorded(d) && CopyFits(d, live)
    ensures SegmentFits(d, CallSegment(d, live, id, action))
  {
    hide Recorded, CopyFits, AllFit, Persist, RecordTool, Touch;
    NothingFits(d);
    match action
    case AskApproval(call, approval) =>
      if CanCall(live.pc, call) {
        PersistNoted(d, live, Enter(live.run, live.pc.left), BareEvent(ApprovalRequested).(call := Some(call), approval := approval),
                     id, live.pc);
      }
    case DecideApproval(call) =>
      if CanCall(live.pc, call) {
        PersistNoted(d, live, Enter(live.run, live.pc.left), BareEvent(ApprovalDecided).(call := Some(call)), id, live.pc);
      }
    case PauseForApproval(call, requested) =>
      if CanCall(live.pc, call) {
        var waiting := live.run.(status := Paused, stop := None, remaining := live.pc.left,
                                 pendingCalls := [call] + live.pc.calls[1..], pendingApprovals := [requested]);
        PersistNoted(d, live, waiting, BareEvent(RunPaused).(call := Some(call), approval := Some(requested)), id, Ended);
      }
    case StartTool(call) =>
      if CanCall(live.pc, call) {
        StampedTouch(live.run.steps, ToolStep, id);
        PersistNoted(d, live, Enter(live.run, live.pc.left).(steps := Touch(live.run.steps, ToolStep, id)),
                     BareEvent(ToolStarted).(call := Some(call)), id, Executing(call, live.pc.calls[1..], live.pc.left));
      }
    case SkipStart(call) =>
      if CanCall(live.pc, call) {
        LoopSilent(d, live, Enter(live.run, live.pc.left), Executing(call, live.pc.calls[1..], live.pc.left));
      }
    case RejectTool(call, error) =>
      if CanCall(live.pc, call) { RejectFits(d, live, id, call, error); }
    case _ =>
  }

  lemma RejectFits(d: Durable, live: Live, id: nat, call: ToolCall, error: string)
    requires Recorded(d) && CopyFits(d, live) && CanCall(live.pc, call)
    ensures SegmentFits(d, RecordTool(d, live.(run := Enter(live.run, live.pc.left)), ErrorEvent(call, error), id, live.pc.calls[1..], live.pc.left))
  {
    hide Recorded, CanSave, RecordTool, SegmentFits;
    EnteredFits(d, live);
    RecordFits(d, live.(run := Enter(live.run, live.pc.left)), ErrorEvent(call, error), id, live.pc.calls[1..], live.pc.left);
  }

  lemma EnteredFits(d: Durable, live: Live)
    requires CopyFits(d, live) && live.pc.Calling?
    ensures CopyFits(d, live.(run := Enter(live.run, live.pc.left)))
  {
    hide View;
    if d.snap.status != Canceled {
      ViewOfSame(d, live, live.(run := Enter(live.run, live.pc.left)));
    }
  }

  /** The loop goes on in memory. */
  lemma LoopSilent(d: Durable, live: Live, run: Run, pc: Pc)
    requires CopyFits(d, live) && InLoop(live.pc) && run.applied == live.run.applied && run.status == live.run.status
    requires StampsKept(live.run, run)
    ensures SegmentFits(d, Segment([], Some(Live(run, pc, false, live.jumped))))
  {
    hide CanSave;
    if d.snap.status != Canceled { SilentFits(d, live, Live(run, pc, false, live.jumped)); }
  }

  lemma RecordFits(d: Durable, live: Live, e: Event, id: nat, rest: seq<ToolCall>, left: int)
    requires Recorded(d) && CopyFits(d, live) && InLoop(live.pc) && ProgressOf(e).Some? && e.kind != RunStopped
    ensures SegmentFits(d, RecordTool(d, live, e, id, rest, left))
  {
    hide Recorded, CopyFits, SegmentFits, Persist;
    var run := live.run;
    var next := if e.kind == ToolFailed && !run.request.recoverToolErrors then Broken(left)
                else if rest == [] then RoundDone(left) else Calling(rest, left);
    StampedPush(run.steps, ProgressOf(e).value.(eventId := Some(id)));
    PersistNoted(d, live, run.(steps := run.steps + [ProgressOf(e).value.(eventId := Some(id))]), e, id, next);
  }

  lemma LedgerKeepsFit(d: Durable, live: Live, w: Write)
    requires Recorded(d) && CopyFits(d, live) && TouchesLedgerOnly(w)
    ensures Recorded(Apply(d, w)) && CopyFits(Apply(d, w), live) && Fits(d, w)
  {
    assert forall s :: Saved(Apply(d, w), s) ==> Saved(d, s);
  }

  lemma {:induction false} LedgerOnlyFits(d: Durable, live: Live, ws: seq<Write>)
    requires Recorded(d) && CopyFits(d, live) && forall w :: w in ws ==> TouchesLedgerOnly(w)
    ensures SegmentFits(d, Segment(ws, Some(live)))
    decreases |ws|
  {
    hide Recorded, CopyFits, Fits;
    if ws != [] {
      assert ws[0] in ws;
      LedgerKeepsFit(d, live, ws[0]);
      LedgerOnlyFits(Apply(d, ws[0]), live, ws[1..]);
    }
  }

  lemma ExecuteFits(d: Durable, live: Live, id: nat, runId: string, tool: Option<ReplayPolicy>)
    requires Recorded(d) && CopyFits(d, live) && live.pc.Executing?
    ensures SegmentFits(d, ExecuteSegment(d, live, id, runId, tool))
  {
    hide Recorded, CopyFits, AllFit, RecordTool, PlanCall, FailWrites, Round;
    NothingFits(d);
    var Executing(call, rest, left) := live.pc;
    var run := live.run;
    if call.name == None {
      LoopSilent(d, live, run, InTool(call, rest, left, None));
    } else {
      match PlanCall(d.ledger, runId, Round(run.steps), call.id, tool)
      case Serve(result) => RecordFits(d, live, ResultEvent(call, result), id, rest, left);
      case ServeError(error) => RecordFits(d, live, ErrorEvent(call, error), id, rest, left);
      case ToolMissing => RecordFits(d, live, ErrorEvent(call, "tool not found"), id, rest, left);
      case Refuse(_) => FailFits(d, live, id);
      case DispatchNew(a) => DispatchFits(d, live, call, rest, left, a, [Create(a), Put(a.(status := Started)), Send(SentOf(a))]);
      case DispatchScheduled(a) => DispatchFits(d, live, call, rest, left, a, [Put(a.(status := Started)), Send(SentOf(a))]);
    }
  }

  lemma DispatchFits(d: Durable, live: Live, call: ToolCall, rest: seq<ToolCall>, left: int, a: Attempt, ws: seq<Write>)
    requires Recorded(d) && CopyFits(d, live) && live.pc.Executing? && forall w :: w in ws ==> TouchesLedgerOnly(w)
    ensures SegmentFits(d, Segment(ws, Some(Live(live.run, InTool(call, rest, left, Some(a.(status := Started))), false, live.jumped))))
  {
    hide Recorded, CanSave, SegmentFits;
    LedgerOnlyFits(d, Live(live.run, InTool(call, rest, left, Some(a.(status := Started))), false, live.jumped), ws);
  }

  lemma CloseFits(d: Durable, live: Live, id: nat, outcome: Outcome, e: Event)
    requires Recorded(d) && CopyFits(d, live) && live.pc.InTool? && ProgressOf(e).Some? && e.kind != RunStopped
    ensures SegmentFits(d, Close(live.pc.attempt, outcome, RecordTool(d, live, e, id, live.pc.rest, live.pc.left)))
  {
    hide Recorded, CopyFits, RecordTool;
    if live.pc.attempt.Some? {
      var w := Put(Concluded(live.pc.attempt.value, outcome));
      LedgerKeepsFit(d, live, w);
      RecordFits(Apply(d, w), live, e, id, live.pc.rest, live.pc.left);
      RecordIgnoresLedger(d, w, live, e, id, live.pc.rest, live.pc.left);
      var seg := RecordTool(d, live, e, id, live.pc.rest, live.pc.left);
      OneMore(d, w, seg.writes);
      assert ([w] + seg.writes)[1..] == seg.writes;
    } else {
      RecordFits(d, live, e, id, live.pc.rest, live.pc.left);
    }
  }

  lemma ToolFits(d: Durable, live: Live, id: nat, runId: string, action: Action)
    requires Recorded(d) && CopyFits(d, live)
    ensures SegmentFits(d, ToolSegment(d, live, id, runId, action))
  {
    hide Recorded, CopyFits, AllFit, RecordTool, ExecuteSegment, Close;
    NothingFits(d);
    match action
    case Execute(tool) => if live.pc.Executing? { ExecuteFits(d, live, id, runId, tool); }
    case ToolReturns(result) =>
      if live.pc.InTool? { CloseFits(d, live, id, Returned(result), ResultEvent(live.pc.call, result)); }
    case ToolRaises(error) =>
      if live.pc.InTool? { CloseFits(d, live, id, Raised(error), ErrorEvent(live.pc.call, error)); }
    case EndRound =>
      if live.pc.RoundDone? { LoopSilent(d, live, live.run.(remaining := live.pc.left - 1), Chatting(live.pc.left - 1)); }
    case _ =>
  }

  lemma ClosingFits(d: Durable, live: Live, id: nat, action: Action)
    requires Recorded(d) && CopyFits(d, live)
    ensures SegmentFits(d, ClosingSegment(d, live, id, action))
  {
    hide Recorded, CopyFits, AllFit, Persist, FailWrites, FinallyWrites, PausedAt, FinishRun, Stopped;
    NothingFits(d);
    match action
    case Finish =>
      if live.pc.Broken? || live.pc.Calling? { FinishFits(d, live); }
    case WriteMemory =>
      if live.pc == Stopping {
        StampedPush(live.run.steps, BareStep(MemoryStep).(eventId := Some(id)));
        PersistNoted(d, live, live.run.(steps := live.run.steps + [BareStep(MemoryStep).(eventId := Some(id))]),
                     BareEvent(MemoryWritten), id, Stopping);
      }
    case StopRun =>
      if live.pc == Stopping && live.run.stop.Some? { StopFits(d, live, id); }
    case LatePause =>
      if live.run.trace != [] && live.run.status == Running && d.snap.status == Running { LateFits(d, live, id); }
    case Raise => FailFits(d, live, id);
    case Interrupt => FinallyFits(d, live);
    case Return => FinallyFits(d, live);
    case _ =>
  }

  lemma FinishFits(d: Durable, live: Live)
    requires CopyFits(d, live) && (live.pc.Broken? || live.pc.Calling?)
    ensures SegmentFits(d, Segment([], Some(Live(FinishRun(live.run, live.pc), Stopping, false, live.jumped))))
  {
    hide CopyFits, SegmentFits;
    StampedPush(live.run.steps, BareStep(StopStep));
    LoopSilent(d, live, FinishRun(live.run, live.pc), Stopping);
  }

  lemma StopFits(d: Durable, live: Live, id: nat)
    requires Recorded(d) && CopyFits(d, live) && live.pc == Stopping && live.run.stop.Some?
    ensures SegmentFits(d, Persist(d, live, Stopped(live.run, id), StopEvent(StopBy(live.run.stop.value)), id, Ended))
  {
    hide Recorded, CopyFits, SegmentFits, Persist, Touch;
    StampedTouch(live.run.steps, StopStep, id);
    PersistFits(d, live, Stopped(live.run, id), StopEvent(StopBy(live.run.stop.value)), id, Ended);
  }

  lemma LateFits(d: Durable, live: Live, id: nat)
    requires Recorded(d) && CopyFits(d, live) && live.run.trace != [] && live.run.status == Running && d.snap.status == Running
    ensures var p := Stamp(BareEvent(RunPaused), id, |d.journal| + 1);
            var paused := PausedAt(live.run, live.run.trace[|live.run.trace| - 1].kind, p);
            SegmentFits(d, Segment([Append(p), Save(paused, Jumped(d, live))], Some(Live(paused, Ended, false, Jumped(d, live)))))
  {
    hide Recorded, CanSave, AllFit, Range;
    var p := Stamp(BareEvent(RunPaused), id, |d.journal| + 1);
    NoteFits(d, live.run, live.jumped, p, PausedAt(live.run, live.run.trace[|live.run.trace| - 1].kind, p));
  }

  lemma ActFits(d: Durable, live: Live, id: nat, runId: string, action: Action)
    requires Recorded(d) && CopyFits(d, live)
    ensures SegmentFits(d, ActSegment(d, live, id, runId, action))
  {
    hide Recorded, CopyFits, SegmentFits, OpeningSegment, CallSegment, ToolSegment, ClosingSegment;
    OpeningFits(d, live, id, action);
    CallFits(d, live, id, action);
    ToolFits(d, live, id, runId, action);
    ClosingFits(d, live, id, action);
  }

  // ----------------------------------------------------------- control and recovery

  /** A control call notes its event on the stored snapshot. */
  lemma ControlFits(d: Durable, e: Event, run: Run)
    requires Recorded(d) && !IsStopped(d.snap) && run.applied == |d.journal| + 1 && Notes(d.snap, run, e)
    ensures AllFit(d, [Append(e), Save(run, Passed(d))])
  {
    hide CanSave, Recorded, AllFit, Range, Notes, IsStopped;
    StoredCanSave(d);
    NoteFits(d, d.snap, {}, e, run);
    assert {} + Range(d.snap.applied, |d.journal|) == Passed(d);
  }

  lemma StopControlFits(d: Durable, id: nat)
    requires Recorded(d)
    ensures AllFit(d, CancelWrites(d, id)) && AllFit(d, MarkFailedWrites(d, id))
  {
    hide Recorded, AllFit, Passed;
    NothingFits(d);
    if !IsStopped(d.snap) {
      var c, f := Stamp(StopEvent(CanceledText), id, |d.journal| + 1), Stamp(StopEvent(FailedText), id, |d.journal| + 1);
      ControlFits(d, c, CanceledBy(d.snap, c));
      ControlFits(d, f, FailedBy(d.snap, f));
    }
  }

  lemma RequestFits(d: Durable)
    requires Recorded(d) && d.snap.status == Running
    ensures AllFit(d, [Save(d.snap.(pauseRequest := true), {})])
  {
    hide Recorded, View;
    StoredCanSave(d);
    KeptView(d, d.snap, {}, d.snap.(pauseRequest := true));
    FitOne(d, Save(d.snap.(pauseRequest := true), {}));
  }

  lemma OperatorFits(d: Durable, first: seq<Write>, e: Event, run: Run)
    requires Recorded(d) && d.snap.status == Paused && forall w :: w in first ==> TouchesLedgerOnly(w)
    requires e.kind != RunStopped && run.applied == |d.journal| + 1 && run.status == Paused && run.steps == d.snap.steps
    ensures AllFit(d, first + [Append(e), Save(run, Passed(d))])
  {
    hide AllFit, Recorded;
    LedgerWritesKeepRun(d, first);
    var d1 := ApplyAll(d, first);
    LedgerRecorded(d, first);
    ControlFits(d1, e, run);
    LedgerFits(d, first, [Append(e), Save(run, Passed(d))]);
  }

  lemma {:induction false} LedgerRecorded(d: Durable, ws: seq<Write>)
    requires Recorded(d) && forall w :: w in ws ==> TouchesLedgerOnly(w)
    ensures Recorded(ApplyAll(d, ws))
    decreases |ws|
  {
    hide View;
    if ws != [] {
      assert ws[0] in ws;
      var d1 := Apply(d, ws[0]);
      assert forall s :: Saved(d1, s) ==> Saved(d, s);
      LedgerRecorded(d1, ws[1..]);
    }
  }

  lemma ResolveFits(d: Durable, id: nat, call: string, number: nat, confirmed: Option<string>)
    requires Recorded(d)
    ensures AllFit(d, ResolveWrites(d, id, call, number, confirmed))
  {
    hide Recorded, AllFit, AllResolved, FindAttempt, Passed;
    NothingFits(d);
    var ws := ResolveWrites(d, id, call, number, confirmed);
    if ws != [] {
      assert ws == [ws[0]] + [ws[1], ws[2]];
      OperatorFits(d, [ws[0]], ws[1].event, ws[2].run);
    }
  }

  lemma AbandonFits(d: Durable, id: nat)
    requires Recorded(d)
    ensures AllFit(d, AbandonWrites(d, id))
  {
    hide Recorded, AllFit, AbandonPuts, Passed;
    NothingFits(d);
    if AbandonWrites(d, id) != [] {
      AbandonPutsTouch(d.ledger, d.ledger);
      var e := Stamp(BareEvent(ExecutionResolved), id, |d.journal| + 1);
      OperatorFits(d, AbandonPuts(d.ledger, d.ledger), e, Noted(d.snap, e));
    }
  }

  /** Replay ends a run by the last stop event it takes in, and by nothing else. */
  lemma {:induction false} ReplayedVerdict(run: Run, journal: seq<Event>, k: nat, max: nat)
    requires JournalOk(journal, max) && Replayable(run, journal) && run.request.maxToolRounds == max
    requires run.applied <= k <= |journal|
    ensures var stop, mid := LastStop(journal, run.applied, k, {}), ReplayedTo(run, journal, k);
            if stop == None then SameEnd(mid, run) else EndsAs(mid, stop.value)
    decreases k
  {
    hide Replayable, ReplayedTo, EventOk, EndsAs;
    if k > run.applied {
      ReplayedVerdict(run, journal, k - 1, max);
      ReplayedStep(run, journal, k - 1, max);
      assert EventOk(journal[k - 1], max);
      EffectVerdict(ReplayedTo(run, journal, k - 1), journal[k - 1], max);
    } else {
      ReplayedEnds(run, journal, max);
    }
  }

  lemma {:induction false} ReplayedStamped(run: Run, journal: seq<Event>, k: nat, max: nat)
    requires JournalOk(journal, max) && Replayable(run, journal) && run.request.maxToolRounds == max
    requires run.applied <= k <= |journal| && Stamped(run.steps)
    ensures Stamped(ReplayedTo(run, journal, k).steps)
    decreases k
  {
    hide Replayable, ReplayedTo, EventOk, Stamped;
    if k > run.applied {
      ReplayedStamped(run, journal, k - 1, max);
      ReplayedStep(run, journal, k - 1, max);
      assert EventOk(journal[k - 1], max);
      EffectStamped(ReplayedTo(run, journal, k - 1), journal[k - 1], max);
    } else {
      ReplayedEnds(run, journal, max);
    }
  }

  lemma EffectStamped(mid: Run, e: Event, max: nat)
    requires EventOk(e, max) && Effect(mid, e).Success? && Stamped(mid.steps)
    ensures Stamped(Record(Effect(mid, e).value, e).steps)
  {
    hide Round, Stamped;
    var after := Effect(mid, e).value.steps;
    if after != mid.steps {
      var s := after[|mid.steps|];
      assert after == mid.steps + [s];
      StampedPush(mid.steps, s);
    }
  }

  lemma EffectVerdict(mid: Run, e: Event, max: nat)
    requires EventOk(e, max) && Effect(mid, e).Success?
    ensures var next := Record(Effect(mid, e).value, e);
            if e.kind == RunStopped then EndsAs(next, e.stop) else SameEnd(next, mid)
    ensures forall text :: EndsAs(mid, text) && e.kind != RunStopped ==> EndsAs(Record(Effect(mid, e).value, e), text)
  {
    hide Round;
  }

  lemma RestoredVerdict(d: Durable, s: Run, request: Request)
    requires DurableOk(d, request) && Saved(d, s)
    ensures s.applied <= |d.journal|
    ensures var stop, restored := LastStop(d.journal, s.applied, |d.journal|, {}), Restore(s, d.journal).0;
            if stop == None then SameEnd(restored, s) else EndsAs(restored, stop.value)
    ensures Stamped(s.steps) ==> Stamped(Restore(s, d.journal).0.steps)
  {
    hide JournalOk, Faithful, Restore, Replayable, Spent, EndsAs, LastStop, Stamped;
    SavedReplays(d, s, request);
    ReplayableIsWithin(s, d.journal);
    ReplayedEnds(s, d.journal, request.maxToolRounds);
    ReplayedVerdict(s, d.journal, |d.journal|, request.maxToolRounds);
    if Stamped(s.steps) { ReplayedStamped(s, d.journal, |d.journal|, request.maxToolRounds); }
  }

  lemma RestoredCanSave(d: Durable, request: Request)
    requires Recorded(d) && DurableOk(d, request) && d.snap.status == Running
    ensures var restored := Restore(d.snap, d.journal).0;
            restored.applied == |d.journal| && CanSave(d, restored, {})
            && d.snap.applied <= |d.journal|
            && var stop := LastStop(d.journal, d.snap.applied, |d.journal|, {});
               Judged(restored, stop) && (stop == None ==> restored.status == Running)
  {
    hide JournalOk, Faithful, Restore, Replayable, Spent, EndsAs, LastStop, Judged;
    var n, max := |d.journal|, request.maxToolRounds;
    RestoredInStep(d, request);
    RestoredVerdict(d, d.snap, request);
    assert Saved(d, d.snap);
    LastStopSplits(d.journal, 0, d.snap.applied, n, d.skipped);
    LastStopFrame(d.journal, d.journal, d.snap.applied, n, {}, d.skipped);
    var restored := Restore(d.snap, d.journal).0;
    RunningJudged(d.snap, restored, LastStop(d.journal, 0, d.snap.applied, d.skipped),
                  LastStop(d.journal, d.snap.applied, n, {}));
    assert d.skipped + {} == d.skipped;
  }

  lemma RunningJudged(run: Run, restored: Run, before: Option<StopText>, stop: Option<StopText>)
    requires run.status == Running && Judged(run, before)
    requires if stop == None then SameEnd(restored, run) else EndsAs(restored, stop.value)
    ensures before == None && Judged(restored, stop) && (stop == None ==> restored.status == Running)
  {
  }

  lemma SuspendFits(d: Durable, id: nat, cause: PauseCause, request: Request)
    requires Recorded(d) && DurableOk(d, request)
    ensures AllFit(d, SuspendWrites(d, id, cause))
  {
    hide Recorded, DurableOk, AllFit, Inspect, UnknownPuts, SuspendWrites;
    NothingFits(d);
    if d.snap.status != Running {
      assert SuspendWrites(d, id, cause) == [] by { SuspendNothing(d, id, cause); }
    } else {
      var first := UnknownPuts(d.ledger);
      UnknownPutsTouch(d.ledger);
      LedgerWritesKeepRun(d, first);
      LedgerRecorded(d, first);
      SuspendSplit(d, id, cause);
      RestoredCanSave(d, request);
      InspectRestores(d.snap, d.journal, Some(ApplyAll(d, first).ledger));
      SameCanSave(d, ApplyAll(d, first), Restore(d.snap, d.journal).0);
      SuspendTailFits(ApplyAll(d, first), id, cause);
      LedgerFits(d, first, SuspendTail(ApplyAll(d, first), id, cause));
    }
  }

  lemma SuspendNothing(d: Durable, id: nat, cause: PauseCause)
    requires d.snap.status != Running
    ensures SuspendWrites(d, id, cause) == []
  {
  }

  lemma SameCanSave(d: Durable, d1: Durable, run: Run)
    requires CanSave(d, run, {}) && d1.snap == d.snap && d1.journal == d.journal && d1.skipped == d.skipped
    ensures CanSave(d1, run, {})
  {
  }

  lemma SuspendTailFits(d: Durable, id: nat, cause: PauseCause)
    requires Recorded(d) && d.snap.status == Running
    requires var run := Inspect(d.snap, d.journal, Some(d.ledger)).0; run.applied == |d.journal| && CanSave(d, run, {})
    ensures AllFit(d, SuspendTail(d, id, cause))
  {
    hide Inspect, Recorded, CanSave, AllFit;
    var (run, eligible, checkpoint) := Inspect(d.snap, d.journal, Some(d.ledger));
    FitOne(d, Save(run, {}));
    if run.status == Running {
      var e := Stamp(BareEvent(RunPaused), id, |d.journal| + 1);
      var paused := Noted(run, e).(status := Paused, stop := None, pause := Some(Pause(cause, checkpoint, eligible)));
      NoteFits(d, run, {}, e, paused);
      assert {} + Range(run.applied, |d.journal|) == Range(run.applied, |d.journal|);
    }
  }

  // --------------------------------------------------------------------- whole runs

  ghost predicate WorldJudged(w: World) {
    Recorded(w.d) && forall c :: c in w.copies ==> CopyFits(w.d, c)
  }

  lemma OpFits(w: World, runId: string, op: Op, request: Request)
    requires WorldInStep(w, request) && WorldJudged(w)
    ensures AllFit(w.d, OpWrites(w, runId, op))
  {
    hide Recorded, CopyFits, AllFit, ActSegment, CancelWrites, MarkFailedWrites, ResolveWrites, AbandonWrites, SuspendWrites, DurableOk, IdsBelow, LiveOk;
    NothingFits(w.d);
    match op
    case Load =>
    case RequestPause => if w.d.snap.status == Running { RequestFits(w.d); }
    case Cancel => StopControlFits(w.d, w.nextId);
    case ResolveExecution(call, number, confirmed) => ResolveFits(w.d, w.nextId, call, number, confirmed);
    case Abandon => AbandonFits(w.d, w.nextId);
    case MarkFailed => StopControlFits(w.d, w.nextId);
    case Suspend(cause, _) => SuspendFits(w.d, w.nextId, cause, request);
    case Act(i, action) =>
      if i < |w.copies| { ActFits(w.d, w.copies[i], w.nextId, runId, action); }
  }

  lemma OpCopiesFit(w: World, runId: string, op: Op, request: Request)
    requires WorldInStep(w, request) && WorldJudged(w) && Alone(w, op)
    ensures forall c :: c in OpCopies(w, runId, op) ==> CopyFits(ApplyAll(w.d, OpWrites(w, runId, op)), c)
  {
    hide Recorded, CanSave, AllFit, ActSegment, CancelWrites, MarkFailedWrites, ResolveWrites, AbandonWrites, SuspendWrites, DurableOk, IdsBelow, LiveOk;
    NothingFits(w.d);
    match op
    case Load => StoredCanSave(w.d);
    case RequestPause =>
      forall c | c in w.copies ensures CopyFits(ApplyAll(w.d, OpWrites(w, runId, op)), c) { RequestKeepsCopy(w.d, c); }
    case Cancel =>
      forall c | c in w.copies ensures CopyFits(ApplyAll(w.d, CancelWrites(w.d, w.nextId)), c) { CancelKeepsCopy(w.d, c, w.nextId); }
    case Act(i, action) =>
      if i < |w.copies| {
        ActFits(w.d, w.copies[i], w.nextId, runId, action);
        assert |w.copies| == 1;
      }
    case _ => assert w.copies == [];
  }

  lemma RequestKeepsCopy(d: Durable, c: Live)
    requires CopyFits(d, c)
    ensures CopyFits(ApplyAll(d, if d.snap.status == Running then [Save(d.snap.(pauseRequest := true), {})] else []), c)
  {
    hide View;
    var save := Save(d.snap.(pauseRequest := true), {});
    NothingFits(d);
    ApplyOne(d, save);
    assert d.skipped + {} == d.skipped;
  }

  lemma CancelKeepsCopy(d: Durable, c: Live, id: nat)
    requires CopyFits(d, c)
    ensures CopyFits(ApplyAll(d, CancelWrites(d, id)), c)
  {
    hide CanSave, Passed;
    NothingFits(d);
    var ws := CancelWrites(d, id);
    if ws != [] {
      assert ws == [ws[0], ws[1]];
      ApplyTwo(d, ws[0], ws[1]);
    }
  }

  lemma StepJudged(w: World, runId: string, step: Label, request: Request)
    requires WorldInStep(w, request) && WorldJudged(w) && Alone(w, step.op)
    ensures var after := Next(w, runId, step);
            WorldJudged(after) && (IsStopped(w.d.snap) ==> SameEnd(after.d.snap, w.d.snap))
  {
    hide WorldInStep, Recorded, CopyFits, AllFit, OpWrites, OpCopies, Surviving, Alone, IsStopped;
    var ws := OpWrites(w, runId, step.op);
    OpFits(w, runId, step.op, request);
    SurvivingIsPrefix(ws, step);
    var k :| 0 <= k <= |ws| && Surviving(ws, step) == ws[..k];
    FitsKeep(w.d, ws, k);
    if step.cut == None { OpCopiesFit(w, runId, step.op, request); }
  }

  lemma StartJudged(request: Request)
    ensures WorldJudged(StartWorld(request))
  {
  }

  lemma {:induction false} RunsJudged(ws: seq<World>, request: Request, runId: string, steps: seq<Label>, k: nat)
    requires ExclusiveRun(ws, request, runId, steps) && k < |ws|
    ensures WorldJudged(ws[k])
    decreases k
  {
    hide WorldInStep, WorldJudged, Next, Alone;
    if k > 0 {
      RunsJudged(ws, request, runId, steps, k - 1);
      RunsInStep(ws, request, runId, steps, k - 1);
      StepJudged(ws[k - 1], runId, steps[k - 1], request);
    } else {
      StartJudged(request);
    }
  }

  // ------------------------------------------------------------------ main results

  /** Every stored snapshot has ended as the last stop event says that it has not passed over, and
      has not ended when there is none; and once a run has ended it stays as it ended, whatever
      copies, control calls, recoveries and crashes follow. */
  lemma {:induction false} StoppedStays(ws: seq<World>, request: Request, runId: string, steps: seq<Label>, j: nat, k: nat)
    requires ExclusiveRun(ws, request, runId, steps) && j <= k < |ws|
    ensures View(ws[j].d.snap, ws[j].d.journal, ws[j].d.skipped)
    ensures IsStopped(ws[j].d.snap) ==> SameEnd(ws[k].d.snap, ws[j].d.snap)
    decreases k
  {
    hide WorldInStep, Next, Alone, CopyFits, View;
    RunsJudged(ws, request, runId, steps, j);
    assert Saved(ws[j].d, ws[j].d.snap);
    if k > j {
      StoppedStays(ws, request, runId, steps, j, k - 1);
      RunsJudged(ws, request, runId, steps, k - 1);
      RunsInStep(ws, request, runId, steps, k - 1);
      StepJudged(ws[k - 1], runId, steps[k - 1], request);
    }
  }

  /** Every response, result and error in a stored snapshot names the event of the journal, before
      its watermark, that it was recorded with: replay would pass over each of them. */
  lemma StepsNameTheirEvents(ws: seq<World>, request: Request, runId: string, steps: seq<Label>, k: nat, s: Run, i: nat)
    requires ExclusiveRun(ws, request, runId, steps) && k < |ws| && Saved(ws[k].d, s)
    requires i < |s.steps| && IsProgress(s.steps[i])
    ensures s.steps[i].eventId.Some? && s.steps[i].eventId.value in StepIds(s.steps)
    ensures IdKnown(ws[k].d.journal, s.applied, s.steps[i].eventId.value)
  {
    hide ExclusiveRun, LastStop, Judged, Spent, Kept, LastResponse, LastRemaining, Traced, Noticed, Progress, IdsBelow, LiveOk, CopyFits;
    RunsJudged(ws, request, runId, steps, k);
    RunsInStep(ws, request, runId, steps, k);
    assert View(s, ws[k].d.journal, ws[k].d.skipped);
    assert s.steps[i] in s.steps;
  }

  /** Replay agrees on how the run ended: restoring any snapshot ever saved ends it as the run at
      the end of the journal has ended, or finds neither ended, exactly when the last stop event
      since that snapshot, if there is any, says what the last one says that was not passed over. */
  lemma RestoredEndAgrees(ws: seq<World>, request: Request, runId: string, steps: seq<Label>, k: nat, live: Live, s: Run)
    requires ExclusiveRun(ws, request, runId, steps) && k < |ws|
    requires Current(ws[k], live) && Saved(ws[k].d, s)
    ensures s.applied <= |ws[k].d.journal|
    ensures var d := ws[k].d;
            var stop := LastStop(d.journal, s.applied, |d.journal|, {});
            EndKept(live.run, Restore(s, d.journal).0)
            <==> stop == None || stop == LastStop(d.journal, 0, |d.journal|, d.skipped + live.jumped)
  {
    hide Restore, Replayable, Faithful, JournalOk, Current, Spent, View, LiveOk, IdsBelow;
    RunsJudged(ws, request, runId, steps, k);
    RunsInStep(ws, request, runId, steps, k);
    CurrentView(ws[k], live);
    RestoredVerdict(ws[k].d, s, request);
    EndsCompare(ws[k].d, live, s, Restore(s, ws[k].d.journal).0);
  }

  lemma CurrentView(w: World, live: Live)
    requires WorldJudged(w) && Current(w, live)
    ensures CanSave(w.d, live.run, live.jumped) && live.run.applied == |w.d.journal|
  {
    hide Recorded, CanSave;
    StoredCanSave(w.d);
  }

  lemma EndsDiffer(a: Run, b: Run, x: StopText, y: StopText)
    requires EndsAs(a, x) && EndsAs(b, y)
    ensures SameEnd(a, b) <==> x == y
    ensures IsStopped(a) && IsStopped(b)
  {
  }

  lemma EndsCompare(d: Durable, live: Live, s: Run, restored: Run)
    requires CanSave(d, live.run, live.jumped) && live.run.applied == |d.journal|
    requires View(s, d.journal, d.skipped) && s.applied <= d.snap.applied
    requires var stop := LastStop(d.journal, s.applied, |d.journal|, {});
             if stop == None then SameEnd(restored, s) else EndsAs(restored, stop.value)
    ensures EndKept(live.run, restored)
            <==> LastStop(d.journal, s.applied, |d.journal|, {}) == None
                 || LastStop(d.journal, s.applied, |d.journal|, {}) == LastStop(d.journal, 0, |d.journal|, d.skipped + live.jumped)
  {
    hide EndsAs, IsStopped, LastStop, SameEnd;
    var n, all := |d.journal|, d.skipped + live.jumped;
    var stop, own, before := LastStop(d.journal, s.applied, n, {}), LastStop(d.journal, 0, n, all), LastStop(d.journal, 0, s.applied, d.skipped);
    LastStopSplits(d.journal, 0, s.applied, n, all);
    LastStopFrame(d.journal, d.journal, 0, s.applied, d.skipped, all);
    if stop == None { NoStopSkipped(d.journal, s.applied, n, all); }
    CompareEnds(live.run, s, restored, own, before, stop);
  }

  lemma {:induction false} NoStopSkipped(journal: seq<Event>, from: nat, end: nat, skipped: set<nat>)
    requires from <= end <= |journal| && LastStop(journal, from, end, {}) == None
    ensures LastStop(journal, from, end, skipped) == None
    decreases end
  {
    if end > from { NoStopSkipped(journal, from, end - 1, skipped); }
  }

  lemma CompareEnds(live: Run, s: Run, restored: Run, own: Option<StopText>, before: Option<StopText>, stop: Option<StopText>)
    requires Judged(live, own) && Judged(s, before) && (stop == None ==> own == before)
    requires if stop == None then SameEnd(restored, s) else EndsAs(restored, stop.value)
    ensures EndKept(live, restored) <==> stop == None || stop == own
  {
    hide EndsAs;
    if stop.Some? && own.Some? { EndsDiffer(live, restored, own.value, stop.value); }
    if stop.Some? { EndsDiffer(restored, restored, stop.value, stop.value); }
    if before.Some? && own.Some? { EndsDiffer(live, s, own.value, before.value); }
  }

  /** A recovery that gets through stores what the journal says about the end of the run: a run
      whose stop event was appended, and whose process died before the snapshot was saved, is
      stored as stopped just so; any other is stored as paused. */
  lemma RecoveryEndsRun(w: World, runId: string, step: Label, request: Request)
    requires WorldInStep(w, request) && WorldJudged(w) && w.d.snap.status == Running
    requires step.op.Suspend? && step.cut == None
    ensures w.d.snap.applied <= |w.d.journal|
    ensures var stop, stored := LastStop(w.d.journal, w.d.snap.applied, |w.d.journal|, {}), Next(w, runId, step).d.snap;
            if stop == None then stored.status == Paused else EndsAs(stored, stop.value)
  {
    hide Recorded, CopyFits, Inspect, UnknownPuts, DurableOk, Restore, LastStop, EndsAs, CanSave, Judged;
    var d, cause := w.d, step.op.cause;
    var first := UnknownPuts(d.ledger);
    UnknownPutsTouch(d.ledger);
    LedgerWritesKeepRun(d, first);
    SuspendSplit(d, w.nextId, cause);
    RestoredCanSave(d, request);
    var d1 := ApplyAll(d, first);
    InspectRestores(d.snap, d.journal, Some(d1.ledger));
    ApplyConcat(d, first, SuspendTail(d1, w.nextId, cause));
    TailEnds(d1, w.nextId, cause, LastStop(d.journal, d.snap.applied, |d.journal|, {}));
  }

  lemma TailEnds(d: Durable, id: nat, cause: PauseCause, stop: Option<StopText>)
    requires Judged(Inspect(d.snap, d.journal, Some(d.ledger)).0, stop)
    requires stop == None ==> Inspect(d.snap, d.journal, Some(d.ledger)).0.status == Running
    ensures var stored := ApplyAll(d, SuspendTail(d, id, cause)).snap;
            if stop == None then stored.status == Paused else EndsAs(stored, stop.value)
  {
    hide Inspect;
    var run := Inspect(d.snap, d.journal, Some(d.ledger)).0;
    if run.status != Running {
      ApplyOne(d, Save(run, {}));
    } else {
      var ws := SuspendTail(d, id, cause);
      assert ws == [ws[0], ws[1]];
      ApplyTwo(d, ws[0], ws[1]);
    }
  }

  /** The stop event an execution, a failure or a cancel appends is replayed to just that end. */
  lemma StopsAreReplayed(run: Run, id: nat, n: nat)
    ensures run.stop.Some? ==>
              var replayed := Effect(run, Stamp(StopEvent(StopBy(run.stop.value)), id, n));
              replayed.Success? && SameEnd(replayed.value, Stopped(run, id)) && EndsAs(replayed.value, StopBy(run.stop.value))
    ensures var e := Stamp(StopEvent(FailedText), id, n);
            Effect(run, e).Success? && SameEnd(Effect(run, e).value, FailedBy(run, e)) && EndsAs(FailedBy(run, e), FailedText)
    ensures var e := Stamp(StopEvent(CanceledText), id, n);
            Effect(run, e).Success? && SameEnd(Effect(run, e).value, CanceledBy(run, e)) && EndsAs(CanceledBy(run, e), CanceledText)
  {
  }

  /** What the loop ends on is why the run stops, and nothing of it is pending any more unless a tool
      error broke it off. */
  lemma FinishMeans(d: Durable, live: Live, id: nat, runId: string)
    requires live.pc.Broken? || (live.pc.Calling? && (live.pc.calls == [] || live.pc.left <= 0))
    ensures var seg := ActSegment(d, live, id, runId, Finish);
            && seg.writes == [] && seg.next.Some? && seg.next.value.pc == Stopping
            && var run := seg.next.value.run;
               && run.steps == live.run.steps + [BareStep(StopStep)] && run.remaining == live.pc.left
               && run.status == live.run.status
               && (if live.pc.Broken? then run.stop == Some(StopReason.ToolError)
                   else run.stop == Some(if live.pc.calls == [] then StopReason.Finished else RoundsExhausted)
                        && run.pendingCalls == [] && run.pendingApprovals == [])
  {
    hide OpeningSegment, CallSegment, ToolSegment;
  }

  /** The run ends with that reason in its journal, and the stop step, when it is still the last one,
      names the event. */
  lemma StopIsRecorded(d: Durable, live: Live, id: nat, runId: string)
    requires live.pc == Stopping && live.run.stop.Some? && d.snap.status != Canceled
    ensures var seg := ActSegment(d, live, id, runId, Action.StopRun);
            && seg.writes != [] && seg.writes[0] == Append(Stamp(StopEvent(StopBy(live.run.stop.value)), id, |d.journal| + 1))
            && seg.next.Some? && seg.next.value.pc == Ended && EndsAs(seg.next.value.run, StopBy(live.run.stop.value))
            && var before, after := live.run.steps, seg.next.value.run.steps;
               && |after| == |before|
               && (forall i :: 0 <= i < |before| ==>
                     after[i] == if i == |before| - 1 && before[i].kind == StopStep then before[i].(eventId := Some(id)) else before[i])
  {
    hide OpeningSegment, CallSegment, ToolSegment, Range;
  }
}
