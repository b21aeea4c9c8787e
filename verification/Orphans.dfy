/** Every exclusive run, torn or not: what may stand in the journal behind a stored snapshot,
    and exactly when recovery, which takes all of it in, keeps the round budget and the tool
    protocol. */
module Orphans {
  import opened Wrappers
  import opened Content
  import opened Runs
  import opened Recovery
  import opened Ledger
  import opened Machine
  import opened Safety
  import opened Agreement
  import opened Replaying
  import opened Exclusive
  import opened Protocol
  import opened Untorn
  import opened Budgets

  // -------------------------------------------------------- behind a snapshot

  /** A paused run that asks the model again when it resumes. */
  predicate AwaitsReply(run: Run) {
    run.pause.Some? &&
    (run.response == None
     || (CallsOf(run.response) != [] && IncompleteCalls(CallsOf(run.response), CompletedIds(run.steps)) == []))
  }

  /** An event that some execution of the run, as it stands, may record next. */
  ghost predicate FitsRun(strict: bool, run: Run, e: Event) {
    var p, max := Progress(run.steps), run.request.maxToolRounds;
    && (run.status == Paused ==> (e.kind == ChatCompleted <==> AwaitsReply(run)))
    && if e.kind == ChatCompleted then
         && e.remaining.Some? && Round(p) + e.remaining.value <= max
         && (strict ==> (p == [] || Complete(p)) && ProgressOf(e).Some? && ReplyOk(ProgressOf(e).value))
       else
         && Round(p) <= max
         && (strict ==> Pending(p) != [] && ProgressOf(e).Some? && AnswerOk(ProgressOf(e).value, Pending(p)[0].id))
  }

  /** All that stands behind a snapshot are first events of executions that start from it:
      responses only or tool results only, each as if the others were not there. */
  ghost predicate TailFits(strict: bool, run: Run, journal: seq<Event>) {
    && run.applied <= |journal|
    && (forall i :: run.applied <= i < |journal| && IsProgressEvent(journal[i]) ==> FitsRun(strict, run, journal[i]))
    && (forall i, j :: run.applied <= i < |journal| && run.applied <= j < |journal|
                       && IsProgressEvent(journal[i]) && IsProgressEvent(journal[j]) ==>
                         (journal[i].kind == ChatCompleted <==> journal[j].kind == ChatCompleted))
  }

  ghost predicate DFits(strict: bool, d: Durable, request: Request) {
    && (forall s :: Saved(d, s) ==> RunShape(strict, s, request))
    && (Alive(d) ==> TailFits(strict, d.snap, d.journal))
    && (forall s :: s in d.sent ==> s.round <= request.maxToolRounds)
    && (strict ==> EchoOk(d.ledger))
  }

  /** Where an execution stands that was resumed from a paused snapshot and stored nothing yet. */
  predicate Phase(pc: Pc, snap: Run) {
    match pc
    case Chatting(_) => AwaitsReply(snap)
    case Calling(_, _) => !AwaitsReply(snap)
    case Executing(_, _, _) => !AwaitsReply(snap)
    case InTool(_, _, _, _) => !AwaitsReply(snap)
    case Stopping => true
    case _ => false
  }

  /** A copy has the progress of the stored snapshot; one outside the loop is that snapshot. */
  ghost predicate Follows(d: Durable, c: Live) {
    if InLoop(c.pc) then
      && Progress(c.run.steps) == Progress(d.snap.steps)
      && if d.snap.status == Running then TailClean(d.journal, d.snap.applied) else Phase(c.pc, d.snap)
    else c.run.(pauseRequest := d.snap.pauseRequest) == d.snap
  }

  ghost predicate CFits(strict: bool, d: Durable, c: Live, request: Request) {
    && RunShape(strict, c.run, request) && PcShape(strict, c.run, c.pc)
    && (Alive(d) ==> Follows(d, c))
    && (d.snap.status == Done || d.snap.status == Failed ==> !AliveRun(c.run))
    && (c.yielded ==> !c.pc.Loaded?)
  }

  /** What every operation of a copy starts from. */
  ghost predicate Fit(strict: bool, d: Durable, c: Live, id: nat, request: Request) {
    && DurableOk(d, request) && LiveOk(d, c, request) && IdsBelow(d.journal, id)
    && DFits(strict, d, request) && CFits(strict, d, c, request)
  }

  lemma FitShapes(strict: bool, d: Durable, c: Live, id: nat, request: Request)
    requires Fit(strict, d, c, id, request)
    ensures RunShape(strict, c.run, request) && PcShape(strict, c.run, c.pc) && c.run.request == request
    ensures strict ==> EchoOk(d.ledger)
    ensures c.yielded ==> !c.pc.Loaded?
  {
    hide Shape, PcShape, DurableOk, LiveOk, Follows;
  }

  // ------------------------------------------------------------------- writes

  ghost predicate FitWrite(strict: bool, d: Durable, request: Request, w: Write) {
    match w
    case Append(e) => Alive(d) ==> TailFits(strict, d.snap, d.journal + [e])
    case Save(run, _) => RunShape(strict, run, request) && (AliveRun(run) ==> TailFits(strict, run, d.journal))
    case Create(a) => strict ==> EchoRow(a)
    case Put(a) => strict ==> EchoRow(a)
    case Resolve(a) => strict ==> EchoRow(a)
    case Send(s) => s.round <= request.maxToolRounds
  }

  ghost predicate FitWrites(strict: bool, d: Durable, request: Request, ws: seq<Write>)
    decreases |ws|
  {
    ws == [] || (FitWrite(strict, d, request, ws[0]) && FitWrites(strict, Apply(d, ws[0]), request, ws[1..]))
  }

  lemma FitWriteKeeps(strict: bool, d: Durable, request: Request, w: Write)
    requires DFits(strict, d, request) && FitWrite(strict, d, request, w)
    ensures DFits(strict, Apply(d, w), request)
  {
    hide RunShape, TailFits, EchoRow;
    var after := Apply(d, w);
    assert forall s :: Saved(after, s) ==> Saved(d, s) || (w.Save? && s == w.run);
    if strict && (w.Put? || w.Resolve?) {
      forall a | a in after.ledger ensures EchoRow(a) {
        var i :| 0 <= i < |after.ledger| && after.ledger[i] == a;
      }
    }
  }

  lemma {:induction false} FitWritesKeep(strict: bool, d: Durable, request: Request, ws: seq<Write>, k: nat)
    requires k <= |ws| && DFits(strict, d, request) && FitWrites(strict, d, request, ws)
    ensures DFits(strict, ApplyAll(d, ws[..k]), request)
    decreases |ws|
  {
    hide DFits, FitWrite, Apply;
    if k > 0 {
      FitWriteKeeps(strict, d, request, ws[0]);
      FitWritesKeep(strict, Apply(d, ws[0]), request, ws[1..], k - 1);
      assert ws[..k][1..] == ws[1..][..k - 1];
    }
  }

  lemma FitCons(strict: bool, d: Durable, request: Request, w: Write, ws: seq<Write>)
    requires FitWrite(strict, d, request, w) && FitWrites(strict, Apply(d, w), request, ws)
    ensures FitWrites(strict, d, request, [w] + ws) && ApplyAll(d, [w] + ws) == ApplyAll(Apply(d, w), ws)
  {
    hide FitWrite, Apply;
    assert ([w] + ws)[1..] == ws;
  }

  lemma FitOne(strict: bool, d: Durable, request: Request, w: Write)
    requires FitWrite(strict, d, request, w)
    ensures FitWrites(strict, d, request, [w]) && ApplyAll(d, [w]) == Apply(d, w)
  {
    hide FitWrite, Apply;
    FitCons(strict, d, request, w, []);
    assert [w] + [] == [w];
  }

  lemma FitTwo(strict: bool, d: Durable, request: Request, a: Write, b: Write)
    requires FitWrite(strict, d, request, a) && FitWrite(strict, Apply(d, a), request, b)
    ensures FitWrites(strict, d, request, [a, b]) && ApplyAll(d, [a, b]) == Apply(Apply(d, a), b)
  {
    hide FitWrite, Apply;
    FitOne(strict, Apply(d, a), request, b);
    FitCons(strict, d, request, a, [b]);
    assert [a] + [b] == [a, b];
  }

  lemma NoFitWrites(strict: bool, d: Durable, request: Request)
    ensures FitWrites(strict, d, request, [])
  {
  }

  ghost predicate FitSegment(strict: bool, d: Durable, request: Request, seg: Segment) {
    && FitWrites(strict, d, request, seg.writes)
    && (seg.next.Some? ==> CFits(strict, ApplyAll(d, seg.writes), seg.next.value, request))
  }

  // --------------------------------------------------------------------- tails

  lemma QuietTail(strict: bool, run: Run, journal: seq<Event>, e: Event)
    requires TailFits(strict, run, journal) && !IsProgressEvent(e)
    ensures TailFits(strict, run, journal + [e])
  {
    hide FitsRun;
    assert forall i :: 0 <= i < |journal| ==> (journal + [e])[i] == journal[i];
  }

  /** A run that has applied the whole journal. */
  lemma NoTail(strict: bool, run: Run, journal: seq<Event>)
    requires run.applied == |journal|
    ensures TailFits(strict, run, journal) && TailClean(journal, run.applied)
  {
  }

  /** A copy that is saved has no more behind it than the snapshot it replaces. */
  lemma ShorterTail(strict: bool, snap: Run, run: Run, journal: seq<Event>)
    requires TailFits(strict, snap, journal) && snap.applied <= run.applied <= |journal|
    requires run.request == snap.request && Progress(run.steps) == Progress(snap.steps)
    requires run.status == Paused ==> snap.status == Paused && (AwaitsReply(run) <==> AwaitsReply(snap))
    ensures TailFits(strict, run, journal)
  {
    hide AwaitsReply, Complete, Pending, Round, Progress;
  }

  /** The event an execution may record where it stands. */
  ghost predicate CanRecord(strict: bool, c: Live, e: Event) {
    var p := Progress(c.run.steps);
    IsProgressEvent(e) ==>
      if e.kind == ChatCompleted then
        c.pc.Chatting? && e.remaining == Some(c.run.remaining) && (strict ==> ReplyOk(ProgressOf(e).value))
      else
        && (c.pc.Calling? || c.pc.Executing? || c.pc.InTool?) && c.run.remaining > 0
        && (strict ==> Pending(p) != [] && AnswerOk(ProgressOf(e).value, Pending(p)[0].id))
  }

  lemma NextFits(strict: bool, d: Durable, c: Live, e: Event, request: Request)
    requires DFits(strict, d, request) && CFits(strict, d, c, request) && Alive(d) && InLoop(c.pc) && CanRecord(strict, c, e)
    ensures TailFits(strict, d.snap, d.journal + [e])
  {
    hide InProtocol, LastChat, Pending, Complete, Progress, AwaitsReply, ReplyOk, AnswerOk, EchoOk, SameIds;
    assert Saved(d, d.snap) && RunShape(strict, d.snap, request);
    if !IsProgressEvent(e) {
      QuietTail(strict, d.snap, d.journal, e);
    } else {
      var after := d.journal + [e];
      assert FitsRun(strict, d.snap, e);
      forall i | d.snap.applied <= i < |after| && IsProgressEvent(after[i])
        ensures FitsRun(strict, d.snap, after[i]) && (after[i].kind == ChatCompleted <==> e.kind == ChatCompleted)
      {
        if i < |d.journal| { assert after[i] == d.journal[i]; }
      }
    }
  }

  // ------------------------------------------------------------------ persisting

  lemma FitInLoop(strict: bool, d: Durable, c: Live, request: Request)
    requires CFits(strict, d, c, request) && InLoop(c.pc) && d.snap.status != Canceled
    ensures Alive(d) && c.run.status == Running
  {
    hide RunShape, Follows;
  }

  lemma SavedCopy(strict: bool, d: Durable, c: Live, request: Request)
    requires RunShape(strict, c.run, request) && PcShape(strict, c.run, c.pc)
    requires c.run == d.snap && c.run.applied == |d.journal| && !c.pc.Loaded?
    ensures CFits(strict, d, c, request)
  {
    hide RunShape;
  }

  lemma PersistFits(strict: bool, d: Durable, live: Live, run: Run, e: Event, id: nat, pc: Pc, request: Request)
    requires Fit(strict, d, live, id, request) && InLoop(live.pc) && !pc.Loaded?
    requires CanRecord(strict, live, e) && RunShape(strict, run, request) && PcShape(strict, run, pc)
    ensures FitSegment(strict, d, request, Persist(d, live, run, e, id, pc))
  {
    hide DurableOk, LiveOk, IdsBelow, DFits, CFits, RunShape, PcShape, CanRecord, Persist, FitSegment, PausesAt;
    if d.snap.status == Canceled {
      CanceledPersist(strict, d, live, run, e, id, pc, request);
    } else {
      FitInLoop(strict, d, live, request);
      var stamped := Stamp(e, id, |d.journal| + 1);
      StampRecords(strict, live, e, id, |d.journal| + 1);
      NextFits(strict, d, live, stamped, request);
      if PausesAt(d, run, e.kind) {
        PausesFit(strict, d, live, run, e, id, pc, request);
      } else {
        SavesFit(strict, d, live, run, e, id, pc, request);
      }
    }
  }

  lemma CanceledPersist(strict: bool, d: Durable, live: Live, run: Run, e: Event, id: nat, pc: Pc, request: Request)
    requires d.snap.status == Canceled
    ensures FitSegment(strict, d, request, Persist(d, live, run, e, id, pc))
  {
  }

  lemma StampRecords(strict: bool, c: Live, e: Event, id: nat, n: nat)
    requires CanRecord(strict, c, e)
    ensures CanRecord(strict, c, Stamp(e, id, n)) && Stamp(e, id, n).sequence == Some(n)
  {
    assert ProgressOf(Stamp(e, id, n)) == ProgressOf(e);
  }

  lemma SavesFit(strict: bool, d: Durable, live: Live, run: Run, e: Event, id: nat, pc: Pc, request: Request)
    requires Alive(d) && !PausesAt(d, run, e.kind) && !pc.Loaded?
    requires TailFits(strict, d.snap, d.journal + [Stamp(e, id, |d.journal| + 1)])
    requires RunShape(strict, run, request) && PcShape(strict, run, pc)
    ensures FitSegment(strict, d, request, Persist(d, live, run, e, id, pc))
  {
    hide RunShape, PcShape, TailFits, Persist, CFits, Jumped, PausesAt, FitWrites;
    var stamped, jumped := Stamp(e, id, |d.journal| + 1), Jumped(d, live);
    var saved := CarriedOn(d, Noted(run, stamped));
    CarriedCore(d, run, stamped);
    SameRunShape(strict, run, saved, request);
    PcShapeNoted(strict, run, saved, pc);
    PersistSavesIs(d, live, run, e, id, pc);
    NoTail(strict, saved, d.journal + [stamped]);
    FitTwo(strict, d, request, Append(stamped), Save(saved, jumped));
    SavedCopy(strict, Apply(Apply(d, Append(stamped)), Save(saved, jumped)), Live(saved, pc, true, jumped), request);
  }

  lemma PausesFit(strict: bool, d: Durable, live: Live, run: Run, e: Event, id: nat, pc: Pc, request: Request)
    requires PausesAt(d, run, e.kind)
    requires TailFits(strict, d.snap, d.journal + [Stamp(e, id, |d.journal| + 1)])
    requires RunShape(strict, run, request)
    ensures FitSegment(strict, d, request, Persist(d, live, run, e, id, pc))
  {
    hide RunShape, TailFits, Persist, CFits, Jumped, FitWrites;
    var n, jumped := |d.journal| + 1, Jumped(d, live);
    var stamped, p := Stamp(e, id, n), Stamp(BareEvent(RunPaused), id + 1, n + 1);
    var d1, paused := Apply(d, Append(stamped)), PausedAt(Noted(run, stamped), e.kind, p);
    QuietTail(strict, d.snap, d1.journal, p);
    NoTail(strict, paused, d1.journal + [p]);
    SameRunShape(strict, run, paused, request);
    var d2 := Apply(d1, Append(p));
    FitTwo(strict, d2, request, Save(paused, jumped), Save(paused, jumped));
    FitCons(strict, d1, request, Append(p), [Save(paused, jumped), Save(paused, jumped)]);
    FitCons(strict, d, request, Append(stamped), [Append(p)] + [Save(paused, jumped), Save(paused, jumped)]);
    PersistPausesIs(d, live, run, e, id, pc);
    assert [Append(p)] + [Save(paused, jumped), Save(paused, jumped)] == [Append(p), Save(paused, jumped), Save(paused, jumped)];
    SavedCopy(strict, Apply(Apply(d2, Save(paused, jumped)), Save(paused, jumped)), Live(paused, Ended, false, jumped), request);
  }

  // ------------------------------------------------------- steps in memory, and deltas

  lemma IdleFits(strict: bool, d: Durable, c: Live, id: nat, request: Request)
    requires Fit(strict, d, c, id, request)
    ensures FitSegment(strict, d, request, Segment([], Some(c)))
  {
    hide DurableOk, LiveOk, DFits, CFits, IdsBelow;
  }

  /** A step of the loop that stores nothing. */
  lemma StayFits(strict: bool, d: Durable, a: Live, b: Live, id: nat, request: Request)
    requires Fit(strict, d, a, id, request) && InLoop(a.pc) && Local(strict, a.run, b.run, b.pc, request)
    requires d.snap.status == Paused && Phase(a.pc, d.snap) ==> Phase(b.pc, d.snap)
    ensures FitSegment(strict, d, request, Segment([], Some(b)))
  {
    hide DurableOk, LiveOk, DFits, IdsBelow, RunShape, Complete, Phase, TailClean, StepIds, Progress;
    FitLocal(strict, a.run, b.run, b.pc, request);
  }

  lemma FitLocal(strict: bool, a: Run, b: Run, pc: Pc, request: Request)
    requires Local(strict, a, b, pc, request)
    ensures RunShape(strict, b, request) && PcShape(strict, b, pc) && InLoop(pc) && b.status == Running
    ensures Progress(b.steps) == Progress(a.steps)
  {
    hide RunShape, Complete;
  }

  lemma ResumePhase(live: Live)
    requires Resume(live).Some?
    ensures var pc := Resume(live).value.pc;
            live.run.status == Paused && Resume(live).value.run.status == Running && !Resume(live).value.yielded
            && (pc.Chatting? || pc.Calling?) && (pc.Chatting? <==> AwaitsReply(live.run))
  {
    hide CompletedIds, IncompleteCalls;
  }

  lemma ResumeFits(strict: bool, d: Durable, live: Live, id: nat, request: Request)
    requires Fit(strict, d, live, id, request) && live.pc == Loaded && Resume(live).Some?
    ensures FitSegment(strict, d, request, Segment([], Resume(live)))
  {
    hide DurableOk, LiveOk, DFits, IdsBelow, RunShape, Complete, TailClean, StepIds, Progress, Resume, CompletedIds, IncompleteCalls, PcShape, Local;
    var next := Resume(live).value;
    ResumeShape(strict, live, request);
    FitLocal(strict, live.run, next.run, next.pc, request);
    ResumePhase(live);
  }

  lemma DeltaFits(strict: bool, d: Durable, c: Live, id: nat, text: string, request: Request)
    requires Fit(strict, d, c, id, request) && c.pc.Chatting?
    ensures FitSegment(strict, d, request, OpeningSegment(d, c, id, Delta(text)))
  {
    hide DurableOk, LiveOk, IdsBelow, RunShape, PcShape, TailFits, Progress, Jumped;
    if d.snap.status == Canceled {
      NoFitWrites(strict, d, request);
    } else {
      FitInLoop(strict, d, c, request);
      var e := Stamp(BareEvent(ChatDelta), id, |d.journal| + 1);
      var next := Live(Noted(c.run, e), c.pc, false, Jumped(d, c));
      QuietTail(strict, d.snap, d.journal, e);
      FitOne(strict, d, request, Append(e));
      SameRunShape(strict, c.run, next.run, request);
      PcShapeNoted(strict, c.run, next.run, c.pc);
      StillClean(d.journal, d.snap.applied, e);
    }
  }

  lemma StillClean(journal: seq<Event>, from: nat, e: Event)
    requires !IsProgressEvent(e)
    ensures TailClean(journal, from) ==> TailClean(journal + [e], from)
  {
    assert forall i :: 0 <= i < |journal| ==> (journal + [e])[i] == journal[i];
  }

  // ------------------------------------------------------------ saving and failing

  /** A copy may be saved wherever it stands. */
  lemma CopyFits(strict: bool, d: Durable, c: Live, id: nat, request: Request)
    requires Fit(strict, d, c, id, request) && d.snap.status != Canceled
    ensures FitWrite(strict, d, request, Save(c.run, c.jumped))
  {
    hide DurableOk, Faithful, IdsBelow, RunShape, PcShape, TailFits, Progress, TailClean, LeftFrom, EchoOk, Phase;
    assert d.snap.applied <= c.run.applied <= |d.journal|;
    assert Saved(d, d.snap);
    if AliveRun(c.run) {
      SameRequest(strict, d.snap, c.run, request);
      if !InLoop(c.pc) { SameStart(c.run, d.snap); } else { RunningInLoop(strict, c.run, c.pc); }
      ShorterTail(strict, d.snap, c.run, d.journal);
    }
  }

  lemma SameRequest(strict: bool, a: Run, b: Run, request: Request)
    requires RunShape(strict, a, request) && RunShape(strict, b, request)
    ensures a.request == b.request
  {
  }

  lemma RunningInLoop(strict: bool, run: Run, pc: Pc)
    requires PcShape(strict, run, pc) && InLoop(pc)
    ensures run.status == Running
  {
  }

  lemma SameStart(a: Run, b: Run)
    requires a.(pauseRequest := b.pauseRequest) == b
    ensures a.steps == b.steps && a.status == b.status && (AwaitsReply(a) <==> AwaitsReply(b))
  {
  }

  lemma FailFits(strict: bool, d: Durable, c: Live, id: nat, request: Request)
    requires Fit(strict, d, c, id, request)
    ensures FitWrites(strict, d, request, FailWrites(d, c, id))
  {
    hide Fit, FitWrite, FitWrites, FailedBy, Jumped, RunShape;
    if d.snap.status == Canceled {
      NoFitWrites(strict, d, request);
    } else {
      var save := Save(c.run, c.jumped);
      CopyFits(strict, d, c, id, request);
      FitOne(strict, d, request, save);
      if c.run.status == Running {
        FailRunningFits(strict, d, c, id, request);
      } else if c.run.status !in {Canceled, Failed} {
        SaveAgain(strict, d, c, request);
      }
    }
  }

  lemma SaveAgain(strict: bool, d: Durable, c: Live, request: Request)
    requires FitWrite(strict, d, request, Save(c.run, c.jumped))
    ensures FitWrites(strict, d, request, [Save(c.run, c.jumped), Save(c.run, c.jumped)])
  {
    hide RunShape, TailFits, FitWrites;
    FitTwo(strict, d, request, Save(c.run, c.jumped), Save(c.run, c.jumped));
  }

  lemma FailRunningFits(strict: bool, d: Durable, c: Live, id: nat, request: Request)
    requires FitWrite(strict, d, request, Save(c.run, c.jumped)) && c.run.status == Running && d.snap.status != Canceled
    ensures FitWrites(strict, d, request, FailWrites(d, c, id))
  {
    hide RunShape, TailFits, FitWrites, FailedBy, Jumped;
    var save, e := Save(c.run, c.jumped), Stamp(StopEvent(FailedText), id, |d.journal| + 1);
    var d1, last := Apply(d, save), Save(FailedBy(c.run, e), Jumped(d, c));
    FailedShape(strict, c.run, e, request);
    QuietTail(strict, c.run, d.journal, e);
    FitTwo(strict, d1, request, Append(e), last);
    FitCons(strict, d, request, save, [Append(e), last]);
    assert [save] + [Append(e), last] == [save, Append(e), last];
  }

  lemma FailSegmentFits(strict: bool, d: Durable, c: Live, id: nat, request: Request)
    requires Fit(strict, d, c, id, request)
    ensures FitSegment(strict, d, request, Segment(FailWrites(d, c, id), None))
  {
    hide Fit, FailWrites, FitWrites;
    FailFits(strict, d, c, id, request);
  }

  lemma FinallyFits(strict: bool, d: Durable, c: Live, id: nat, request: Request)
    requires Fit(strict, d, c, id, request)
    ensures FitSegment(strict, d, request, Segment(FinallyWrites(d, c), None))
  {
    hide Fit, FitWrite, FitWrites;
    if d.snap.status in {Canceled, Failed} {
      NoFitWrites(strict, d, request);
    } else {
      CopyFits(strict, d, c, id, request);
      FitOne(strict, d, request, Save(c.run, c.jumped));
    }
  }

  // ------------------------------------------------------------------- operations

  /** An event that records no progress. */
  lemma QuietFits(strict: bool, d: Durable, live: Live, run: Run, e: Event, id: nat, pc: Pc, request: Request)
    requires Fit(strict, d, live, id, request) && InLoop(live.pc) && !pc.Loaded?
    requires e.kind !in {ChatCompleted, ToolCompleted, ToolFailed}
    requires RunShape(strict, run, request) && PcShape(strict, run, pc)
    ensures FitSegment(strict, d, request, Persist(d, live, run, e, id, pc))
  {
    hide Fit, RunShape, PcShape, Persist, FitSegment;
    PersistFits(strict, d, live, run, e, id, pc, request);
  }

  lemma OpeningFits(strict: bool, d: Durable, live: Live, id: nat, action: Action, request: Request)
    requires Fit(strict, d, live, id, request) && (strict && action.Respond? ==> GoodReply(action.response.message))
    ensures FitSegment(strict, d, request, OpeningSegment(d, live, id, action))
  {
    hide Fit, FitSegment, FailWrites, Resume, Persist, Responded, GoodReply, Noted, Stamp, RunShape, PcShape, CanRecord;
    IdleFits(strict, d, live, id, request);
    FitShapes(strict, d, live, id, request);
    match action
    case Begin =>
      if live.pc == Loaded {
        if Resume(live) == None { FailSegmentFits(strict, d, live, id, request); } else { ResumeFits(strict, d, live, id, request); }
      }
    case StartRun =>
      if live.pc == Fresh {
        StartShape(strict, live.run, id, request);
        QuietFits(strict, d, live, live.run.(steps := live.run.steps + [BareStep(StartStep).(eventId := Some(id))]),
                  BareEvent(RunStarted), id, Chatting(live.run.request.maxToolRounds), request);
      }
    case Delta(text) => if live.pc.Chatting? { DeltaFits(strict, d, live, id, text, request); }
    case Respond(response) =>
      if live.pc.Chatting? {
        RespondShape(strict, live.run, live.pc.left, response, id, request);
        ReplyRecords(strict, live, response);
        PersistFits(strict, d, live, Responded(live.run, response, id), ChatEvent(live.run, response), id,
                    Calling(response.message.calls, live.pc.left), request);
      }
    case _ =>
  }

  lemma ReplyRecords(strict: bool, live: Live, response: Response)
    requires live.pc.Chatting? && (strict ==> GoodReply(response.message))
    ensures CanRecord(strict, live, ChatEvent(live.run, response))
  {
    hide GoodReply;
  }

  lemma RecordFits(strict: bool, d: Durable, live: Live, call: ToolCall, e: Event, id: nat, rest: seq<ToolCall>, left: int, request: Request)
    requires Fit(strict, d, live, id, request) && (live.pc.Calling? || live.pc.Executing? || live.pc.InTool?)
    requires PcShape(strict, live.run, Executing(call, rest, left))
    requires e.kind in {ToolCompleted, ToolFailed} && e.call.Some? && (strict ==> AnswersCall(e, call))
    ensures FitSegment(strict, d, request, RecordTool(d, live, e, id, rest, left))
  {
    hide Fit, RunShape, PcShape, Persist, FitSegment, AnswersCall, CanRecord;
    FitShapes(strict, d, live, id, request);
    ToolShape(strict, live.run, call, rest, left, e, id, request);
    ToolRecords(strict, live, call, e, rest, left);
    PersistFits(strict, d, live, WithTool(live.run, e, id), e, id, AfterTool(live.run, e, rest, left), request);
    assert RecordTool(d, live, e, id, rest, left)
           == Persist(d, live, WithTool(live.run, e, id), e, id, AfterTool(live.run, e, rest, left));
  }

  lemma ToolRecords(strict: bool, live: Live, call: ToolCall, e: Event, rest: seq<ToolCall>, left: int)
    requires live.pc.Calling? || live.pc.Executing? || live.pc.InTool?
    requires PcShape(strict, live.run, Executing(call, rest, left))
    requires e.kind in {ToolCompleted, ToolFailed} && e.call.Some? && (strict ==> AnswersCall(e, call))
    ensures CanRecord(strict, live, e)
  {
    hide Pending, Progress, CallIds;
    if strict { TakenIds(call, rest, Pending(Progress(live.run.steps))); }
  }

  lemma EnteredFit(strict: bool, d: Durable, live: Live, id: nat, call: ToolCall, request: Request)
    requires Fit(strict, d, live, id, request) && CanCall(live.pc, call)
    ensures var run, left, rest := live.run, live.pc.left, live.pc.calls[1..];
            var entered := Enter(run, left);
            && entered == run.(stop := Some(StopReason.Finished)) && left == run.remaining
            && RunShape(strict, entered, request) && PcShape(strict, entered, live.pc)
            && PcShape(strict, entered, Executing(call, rest, left))
            && RunShape(strict, run, request) && PcShape(strict, run, live.pc)
            && Local(strict, run, entered, Executing(call, rest, left), request)
            && Fit(strict, d, live.(run := entered), id, request)
  {
    hide DurableOk, IdsBelow, DFits, RunShape, SameIds, Complete, TailClean, Phase, Progress, StepIds;
    EnterShape(strict, live.run, live.pc.calls, live.pc.left, request);
    TakeShape(strict, Enter(live.run, live.pc.left), live.pc.calls, live.pc.left, call, request);
    NotNegative(strict, live.run, request);
    EnteredLive(d, live, request);
  }

  lemma NotNegative(strict: bool, run: Run, request: Request)
    requires RunShape(strict, run, request)
    ensures 0 <= run.remaining
  {
  }

  lemma EnteredLive(d: Durable, live: Live, request: Request)
    requires LiveOk(d, live, request)
    ensures LiveOk(d, live.(run := live.run.(stop := Some(StopReason.Finished))), request)
  {
  }

  lemma CallFits(strict: bool, d: Durable, live: Live, id: nat, action: Action, request: Request)
    requires Fit(strict, d, live, id, request)
    ensures FitSegment(strict, d, request, CallSegment(d, live, id, action))
  {
    hide Fit, FitSegment, CanCall, Persist, RecordTool, Enter, Touch, RunShape, PcShape, Local;
    IdleFits(strict, d, live, id, request);
    match action
    case AskApproval(call, approval) =>
      if CanCall(live.pc, call) { AskFits(strict, d, live, id, call, approval, request); }
    case DecideApproval(call) => if CanCall(live.pc, call) { AskFits(strict, d, live, id, call, None, request); }
    case PauseForApproval(call, requested) => if CanCall(live.pc, call) { WaitFits(strict, d, live, id, call, requested, request); }
    case StartTool(call) => if CanCall(live.pc, call) { TakeFits(strict, d, live, id, call, request); }
    case SkipStart(call) => if CanCall(live.pc, call) { SkipFits(strict, d, live, id, call, request); }
    case RejectTool(call, error) => if CanCall(live.pc, call) { RejectFits(strict, d, live, id, call, error, request); }
    case _ =>
  }

  lemma AskFits(strict: bool, d: Durable, live: Live, id: nat, call: ToolCall, approval: Option<string>, request: Request)
    requires Fit(strict, d, live, id, request) && CanCall(live.pc, call)
    ensures FitSegment(strict, d, request, CallSegment(d, live, id, AskApproval(call, approval)))
    ensures FitSegment(strict, d, request, CallSegment(d, live, id, DecideApproval(call)))
  {
    hide Fit, RunShape, PcShape, Persist, FitSegment, Local;
    EnteredFit(strict, d, live, id, call, request);
    var entered := Enter(live.run, live.pc.left);
    QuietFits(strict, d, live, entered, BareEvent(ApprovalRequested).(call := Some(call), approval := approval), id, live.pc, request);
    QuietFits(strict, d, live, entered, BareEvent(ApprovalDecided).(call := Some(call)), id, live.pc, request);
  }

  lemma WaitFits(strict: bool, d: Durable, live: Live, id: nat, call: ToolCall, requested: string, request: Request)
    requires Fit(strict, d, live, id, request) && CanCall(live.pc, call)
    ensures FitSegment(strict, d, request, CallSegment(d, live, id, PauseForApproval(call, requested)))
  {
    hide Fit, RunShape, PcShape, Persist, FitSegment, Local;
    EnteredFit(strict, d, live, id, call, request);
    WaitShape(strict, live.run, live.pc.calls, live.pc.left, call, requested, request);
    var waiting := live.run.(status := Paused, stop := None, remaining := live.pc.left,
                             pendingCalls := [call] + live.pc.calls[1..], pendingApprovals := [requested]);
    QuietFits(strict, d, live, waiting, BareEvent(RunPaused).(call := Some(call), approval := Some(requested)), id, Ended, request);
  }

  lemma TakeFits(strict: bool, d: Durable, live: Live, id: nat, call: ToolCall, request: Request)
    requires Fit(strict, d, live, id, request) && CanCall(live.pc, call)
    ensures FitSegment(strict, d, request, CallSegment(d, live, id, StartTool(call)))
  {
    hide Fit, RunShape, PcShape, Persist, FitSegment, Touch, Local;
    EnteredFit(strict, d, live, id, call, request);
    TouchKeeps(live.run.steps, ToolStep, id);
    var entered := Enter(live.run, live.pc.left);
    var touched := entered.(steps := Touch(live.run.steps, ToolStep, id));
    SameProgressShape(strict, entered, touched, Executing(call, live.pc.calls[1..], live.pc.left), request);
    QuietFits(strict, d, live, touched, BareEvent(ToolStarted).(call := Some(call)), id,
              Executing(call, live.pc.calls[1..], live.pc.left), request);
  }

  lemma SkipFits(strict: bool, d: Durable, live: Live, id: nat, call: ToolCall, request: Request)
    requires Fit(strict, d, live, id, request) && CanCall(live.pc, call)
    ensures FitSegment(strict, d, request, CallSegment(d, live, id, SkipStart(call)))
  {
    hide Fit, RunShape, PcShape, FitSegment, Local;
    EnteredFit(strict, d, live, id, call, request);
    StayFits(strict, d, live,
             Live(Enter(live.run, live.pc.left), Executing(call, live.pc.calls[1..], live.pc.left), false, live.jumped), id, request);
  }

  lemma RejectFits(strict: bool, d: Durable, live: Live, id: nat, call: ToolCall, error: string, request: Request)
    requires Fit(strict, d, live, id, request) && CanCall(live.pc, call)
    ensures FitSegment(strict, d, request, CallSegment(d, live, id, RejectTool(call, error)))
  {
    hide Fit, RunShape, PcShape, FitSegment, RecordTool, AnswersCall, Local;
    EnteredFit(strict, d, live, id, call, request);
    ErrorAnswers(call, error);
    RecordFits(strict, d, live.(run := Enter(live.run, live.pc.left)), call, ErrorEvent(call, error), id,
               live.pc.calls[1..], live.pc.left, request);
  }

  // ------------------------------------------------------------- running the tool

  lemma LedgerSegmentFits(strict: bool, d: Durable, w: Write, seg: Segment, request: Request)
    requires FitWrite(strict, d, request, w) && FitSegment(strict, Apply(d, w), request, seg)
    ensures FitSegment(strict, d, request, Segment([w] + seg.writes, seg.next))
  {
    hide FitWrite, FitWrites, CFits, Apply;
    FitCons(strict, d, request, w, seg.writes);
  }

  lemma LedgerStillFit(strict: bool, d: Durable, c: Live, w: Write, id: nat, request: Request)
    requires Fit(strict, d, c, id, request) && TouchesLedgerOnly(w) && FitWrite(strict, d, request, w)
    ensures Fit(strict, Apply(d, w), c, id, request)
  {
    hide DurableOk, LiveOk, DFits, CFits, FitWrite;
    LedgerWriteKeeps(d, c, w, request);
    FitWriteKeeps(strict, d, request, w);
    CopyFitsLedger(strict, d, c, w, request);
  }

  lemma CopyFitsLedger(strict: bool, d: Durable, c: Live, w: Write, request: Request)
    requires TouchesLedgerOnly(w)
    ensures CFits(strict, Apply(d, w), c, request) <==> CFits(strict, d, c, request)
  {
    hide RunShape, PcShape, Phase, TailClean;
  }

  lemma {:induction false} SendFits(strict: bool, d: Durable, ws: seq<Write>, next: Live, request: Request)
    requires CFits(strict, d, next, request)
    requires forall w :: w in ws ==> TouchesLedgerOnly(w) && FitWrite(strict, d, request, w)
    ensures FitSegment(strict, d, request, Segment(ws, Some(next)))
    decreases |ws|
  {
    hide CFits, TouchesLedgerOnly;
    if ws != [] {
      var d1 := Apply(d, ws[0]);
      assert ws[0] in ws;
      CopyFitsLedger(strict, d, next, ws[0], request);
      forall w | w in ws[1..] ensures TouchesLedgerOnly(w) && FitWrite(strict, d1, request, w) {
        assert w in ws;
        LedgerFitsAnywhere(strict, d, d1, request, w);
      }
      SendFits(strict, d1, ws[1..], next, request);
      LedgerSegmentFits(strict, d, ws[0], Segment(ws[1..], Some(next)), request);
      assert [ws[0]] + ws[1..] == ws;
    }
  }

  lemma LedgerFitsAnywhere(strict: bool, a: Durable, b: Durable, request: Request, w: Write)
    requires TouchesLedgerOnly(w) && FitWrite(strict, a, request, w)
    ensures FitWrite(strict, b, request, w)
  {
  }

  /** An attempt handed to its tool, in a round the budget allows. */
  lemma DispatchFits(strict: bool, d: Durable, live: Live, a: Attempt, id: nat, request: Request)
    requires Fit(strict, d, live, id, request) && live.pc.Executing?
    requires a.id == live.pc.call.id && a.round == Some(Round(live.run.steps)) && (strict ==> EchoRow(a))
    ensures var started := a.(status := Started);
            var next := Live(live.run, InTool(live.pc.call, live.pc.rest, live.pc.left, Some(started)), false, live.jumped);
            var ws := [Put(started), Send(SentOf(a))];
            && FitSegment(strict, d, request, Segment(ws, Some(next)))
            && FitSegment(strict, d, request, Segment([Create(a)] + ws, Some(next)))
  {
    hide DurableOk, LiveOk, DFits, CFits, IdsBelow, FitSegment, Local;
    var started := a.(status := Started);
    var next := Live(live.run, InTool(live.pc.call, live.pc.rest, live.pc.left, Some(started)), false, live.jumped);
    FitShapes(strict, d, live, id, request);
    ProgressCounts(live.run.steps);
    StillHere(strict, live, next, request);
    StayFits(strict, d, live, next, id, request);
    StayedCopy(strict, d, next, request);
    SendFits(strict, d, [Put(started), Send(SentOf(a))], next, request);
    SendFits(strict, d, [Create(a)] + [Put(started), Send(SentOf(a))], next, request);
  }

  lemma StayedCopy(strict: bool, d: Durable, c: Live, request: Request)
    requires FitSegment(strict, d, request, Segment([], Some(c)))
    ensures CFits(strict, d, c, request)
  {
    hide CFits, FitWrites;
  }

  lemma ExecuteFits(strict: bool, d: Durable, live: Live, id: nat, runId: string, tool: Option<ReplayPolicy>, request: Request)
    requires Fit(strict, d, live, id, request) && live.pc.Executing?
    ensures FitSegment(strict, d, request, ExecuteSegment(d, live, id, runId, tool))
  {
    hide Fit, FitSegment, RecordTool, FailWrites, RunShape, Round, AnswersCall, Local, PcShape;
    var Executing(call, rest, left) := live.pc;
    FitShapes(strict, d, live, id, request);
    if call.name == None {
      UnnamedShape(strict, live.run, call, rest, left);
      var next := Live(live.run, InTool(call, rest, left, None), false, live.jumped);
      StillHere(strict, live, next, request);
      StayFits(strict, d, live, next, id, request);
    } else {
      var plan := PlanCall(d.ledger, runId, Round(live.run.steps), call.id, tool);
      PlanEchoes(strict, d.ledger, runId, Round(live.run.steps), call.id, tool);
      match plan
      case Serve(result) =>
        ResultAnswers(call, result);
        RecordFits(strict, d, live, call, ResultEvent(call, result), id, rest, left, request);
      case ServeError(error) =>
        ErrorAnswers(call, error);
        RecordFits(strict, d, live, call, ErrorEvent(call, error), id, rest, left, request);
      case ToolMissing =>
        ErrorAnswers(call, "tool not found");
        RecordFits(strict, d, live, call, ErrorEvent(call, "tool not found"), id, rest, left, request);
      case Refuse(_) => FailSegmentFits(strict, d, live, id, request);
      case DispatchNew(a) =>
        DispatchFits(strict, d, live, a, id, request);
        assert [Create(a)] + [Put(a.(status := Started)), Send(SentOf(a))] == [Create(a), Put(a.(status := Started)), Send(SentOf(a))];
      case DispatchScheduled(a) => DispatchFits(strict, d, live, a, id, request);
    }
  }

  lemma ReturnFits(strict: bool, d: Durable, live: Live, id: nat, outcome: Outcome, e: Event, request: Request)
    requires Fit(strict, d, live, id, request) && live.pc.InTool?
    requires e.kind in {ToolCompleted, ToolFailed} && e.call.Some? && (strict ==> AnswersCall(e, live.pc.call))
    requires strict && outcome.Returned? ==> outcome.result.id == live.pc.call.id
    ensures FitSegment(strict, d, request, Close(live.pc.attempt, outcome, RecordTool(d, live, e, id, live.pc.rest, live.pc.left)))
  {
    hide Fit, FitSegment, RecordTool, RunShape, AnswersCall;
    var InTool(call, rest, left, attempt) := live.pc;
    FitShapes(strict, d, live, id, request);
    if attempt == None {
      RecordFits(strict, d, live, call, e, id, rest, left, request);
    } else {
      var w := Put(Concluded(attempt.value, outcome));
      LedgerStillFit(strict, d, live, w, id, request);
      RecordFits(strict, Apply(d, w), live, call, e, id, rest, left, request);
      RecordIgnoresLedger(d, w, live, e, id, rest, left);
      LedgerSegmentFits(strict, d, w, RecordTool(d, live, e, id, rest, left), request);
    }
  }

  lemma ToolFits(strict: bool, d: Durable, live: Live, id: nat, runId: string, action: Action, request: Request)
    requires Fit(strict, d, live, id, request)
    requires strict && action.ToolReturns? && live.pc.InTool? ==> action.result.id == live.pc.call.id
    ensures FitSegment(strict, d, request, ToolSegment(d, live, id, runId, action))
  {
    hide Fit, FitSegment, RecordTool, ExecuteSegment, Close, AnswersCall, RunShape, PcShape, Local;
    IdleFits(strict, d, live, id, request);
    FitShapes(strict, d, live, id, request);
    match action
    case Execute(tool) => if live.pc.Executing? { ExecuteFits(strict, d, live, id, runId, tool, request); }
    case ToolReturns(result) =>
      if live.pc.InTool? {
        ResultAnswers(live.pc.call, result);
        ReturnFits(strict, d, live, id, Returned(result), ResultEvent(live.pc.call, result), request);
      }
    case ToolRaises(error) =>
      if live.pc.InTool? {
        ErrorAnswers(live.pc.call, error);
        ReturnFits(strict, d, live, id, Raised(error), ErrorEvent(live.pc.call, error), request);
      }
    case EndRound =>
      if live.pc.RoundDone? {
        EndRoundShape(strict, live.run, live.pc.left, request);
        StayFits(strict, d, live, Live(live.run.(remaining := live.pc.left - 1), Chatting(live.pc.left - 1), false, live.jumped), id, request);
      }
    case _ =>
  }

  // --------------------------------------------------------------------- closing

  lemma LatePauseFits(strict: bool, d: Durable, live: Live, id: nat, request: Request)
    requires Fit(strict, d, live, id, request) && live.run.trace != [] && d.snap.status == Running
    ensures var kind := live.run.trace[|live.run.trace| - 1].kind;
            var p := Stamp(BareEvent(RunPaused), id, |d.journal| + 1);
            var paused := PausedAt(live.run, kind, p);
            FitSegment(strict, d, request,
                       Segment([Append(p), Save(paused, Jumped(d, live))], Some(Live(paused, Ended, false, Jumped(d, live)))))
  {
    hide DurableOk, LiveOk, IdsBelow, Follows, RunShape, TailFits, Jumped, CFits, FitWrites;
    var kind := live.run.trace[|live.run.trace| - 1].kind;
    var p := Stamp(BareEvent(RunPaused), id, |d.journal| + 1);
    var paused, jumped := PausedAt(live.run, kind, p), Jumped(d, live);
    FitShapes(strict, d, live, id, request);
    QuietTail(strict, d.snap, d.journal, p);
    SameRunShape(strict, live.run, paused, request);
    NoTail(strict, paused, d.journal + [p]);
    FitTwo(strict, d, request, Append(p), Save(paused, jumped));
    SavedCopy(strict, Apply(Apply(d, Append(p)), Save(paused, jumped)), Live(paused, Ended, false, jumped), request);
  }

  lemma StopFits(strict: bool, d: Durable, live: Live, id: nat, request: Request)
    requires Fit(strict, d, live, id, request) && live.pc == Stopping && live.run.stop.Some?
    ensures FitSegment(strict, d, request,
                       Persist(d, live, Stopped(live.run, id), StopEvent(StopBy(live.run.stop.value)), id, Ended))
  {
    hide Fit, FitSegment, Persist, Touch, Progress, Shape;
    FitShapes(strict, d, live, id, request);
    TouchKeeps(live.run.steps, StopStep, id);
    QuietFits(strict, d, live, Stopped(live.run, id), StopEvent(StopBy(live.run.stop.value)), id, Ended, request);
  }

  lemma MemoryFits(strict: bool, d: Durable, live: Live, id: nat, request: Request)
    requires Fit(strict, d, live, id, request) && live.pc == Stopping
    ensures FitSegment(strict, d, request, ClosingSegment(d, live, id, WriteMemory))
  {
    hide Fit, FitSegment, Persist, Progress, StepIds, RunShape, PcShape;
    FitShapes(strict, d, live, id, request);
    var s := BareStep(MemoryStep).(eventId := Some(id));
    ProgressPush(live.run.steps, s);
    var run := live.run.(steps := live.run.steps + [s]);
    SameProgressShape(strict, live.run, run, Stopping, request);
    QuietFits(strict, d, live, run, BareEvent(MemoryWritten), id, Stopping, request);
  }

  lemma ClosingFits(strict: bool, d: Durable, live: Live, id: nat, action: Action, request: Request)
    requires Fit(strict, d, live, id, request)
    ensures FitSegment(strict, d, request, ClosingSegment(d, live, id, action))
  {
    hide Fit, FitSegment, Persist, FailWrites, FinallyWrites, Local, PausedAt, Stamp, Jumped, Stopped, FinishRun, IsCheckpoint, RunShape, PcShape;
    IdleFits(strict, d, live, id, request);
    FitShapes(strict, d, live, id, request);
    match action
    case Finish =>
      if live.pc.Broken? || live.pc.Calling? {
        FinishShape(strict, live.run, live.pc, request);
        StayFits(strict, d, live, Live(FinishRun(live.run, live.pc), Stopping, false, live.jumped), id, request);
      }
    case WriteMemory => if live.pc == Stopping { MemoryFits(strict, d, live, id, request); }
    case StopRun => if live.pc == Stopping && live.run.stop.Some? { StopFits(strict, d, live, id, request); }
    case LatePause =>
      if live.run.trace != [] && d.snap.status == Running { LatePauseFits(strict, d, live, id, request); }
    case Raise => FailSegmentFits(strict, d, live, id, request);
    case Interrupt => FinallyFits(strict, d, live, id, request);
    case Return => FinallyFits(strict, d, live, id, request);
    case _ =>
  }

  lemma ActFits(strict: bool, d: Durable, live: Live, id: nat, runId: string, action: Action, request: Request)
    requires Fit(strict, d, live, id, request)
    requires strict && action.Respond? ==> GoodReply(action.response.message)
    requires strict && action.ToolReturns? && live.pc.InTool? ==> action.result.id == live.pc.call.id
    ensures FitSegment(strict, d, request, ActSegment(d, live, id, runId, action))
  {
    hide Fit, FitSegment, OpeningSegment, CallSegment, ToolSegment, ClosingSegment, GoodReply;
    OpeningFits(strict, d, live, id, action, request);
    CallFits(strict, d, live, id, action, request);
    ToolFits(strict, d, live, id, runId, action, request);
    ClosingFits(strict, d, live, id, action, request);
  }
}
