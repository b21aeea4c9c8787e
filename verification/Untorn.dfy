/** Runs in which no crash cuts the first event after a resume from its snapshot: there the
    rounds stay within their budget and every transcript follows the tool protocol. */
module Untorn {
  import opened Wrappers
  import opened Content
  import opened Runs
  import opened Recovery
  import opened Ledger
  import opened Machine
  import opened Safety
  import opened Agreement
  import opened Replaying
  import opened Exclusive
  import opened Protocol

  // ------------------------------------------------------------------- assumptions

  /** A stored PAUSED snapshot behind a response or a tool result: recovery passes over paused
      runs, so the next execution starts without the event and orphans it. */
  ghost predicate Torn(d: Durable) {
    d.snap.status == Paused && !TailClean(d.journal, d.snap.applied)
  }

  ghost predicate UntornRun(ws: seq<World>, request: Request, runId: string, steps: seq<Label>) {
    ExclusiveRun(ws, request, runId, steps) && forall k {:trigger ws[k]} :: 0 <= k < |ws| ==> !Torn(ws[k].d)
  }

  /** Providers answer as the assistant with distinct call ids; tools echo the id of their call. */
  predicate Sane(w: World, op: Op) {
    op.Act? && op.copy < |w.copies| ==>
      && (op.action.Respond? ==> GoodReply(op.action.response.message))
      && (op.action.ToolReturns? && w.copies[op.copy].pc.InTool? ==> op.action.result.id == w.copies[op.copy].pc.call.id)
  }

  ghost predicate SaneRun(ws: seq<World>, steps: seq<Label>) {
    |ws| == |steps| + 1 && forall i {:trigger steps[i]} :: 0 <= i < |steps| ==> Sane(ws[i], steps[i].op)
  }

  // ------------------------------------------------------------------------ shapes

  /** Rounds recorded and rounds left stay within the budget; a round whose tools ran was
      paid for; and, for sane inputs, the progress is in protocol. */
  ghost predicate Shape(strict: bool, p: seq<Step>, response: Option<Response>, remaining: int, max: nat) {
    && 0 <= remaining <= max && Round(p) + remaining <= max + 1
    && (p != [] && IsToolStep(p[|p| - 1]) ==> Round(p) <= max)
    && response == LastChat(p)
    && (response == None ==> Round(p) == 0 && remaining == max)
    && (strict ==> InProtocol(p))
  }

  ghost predicate RunShape(strict: bool, run: Run, request: Request) {
    && run.request == request
    && Shape(strict, Progress(run.steps), run.response, run.remaining, request.maxToolRounds)
    && (strict && run.status == Paused && run.pause == None ==> SameIds(run.pendingCalls, Progress(run.steps)))
  }

  /** The calls are the pending ones, up to their arguments. */
  predicate SameIds(calls: seq<ToolCall>, p: seq<Step>) {
    CallIds(calls) == CallIds(Pending(p))
  }

  predicate EchoRow(a: Attempt) {
    a.result.Some? ==> a.result.value.id == a.id
  }

  /** A run stops with FINISHED only when no call is left, and out of rounds only when some are. */
  predicate StopShape(stop: Option<StopReason>, p: seq<Step>) {
    && (stop == Some(StopReason.Finished) ==> Pending(p) == [])
    && (stop == Some(RoundsExhausted) ==> Pending(p) != [])
  }

  ghost predicate PcShape(strict: bool, run: Run, pc: Pc) {
    var p := Progress(run.steps);
    && (InLoop(pc) ==> run.status == Running)
    && match pc
       case Fresh => p == []
       case Chatting(left) =>
         left == run.remaining && Round(p) + left <= run.request.maxToolRounds && (strict ==> p == [] || Complete(p))
       case Calling(calls, left) => left == run.remaining && run.response.Some? && (strict ==> SameIds(calls, p))
       case Executing(call, rest, left) =>
         left == run.remaining && left > 0 && run.response.Some? && (strict ==> SameIds([call] + rest, p))
       case InTool(call, rest, left, attempt) =>
         && left == run.remaining && left > 0 && run.response.Some? && (strict ==> SameIds([call] + rest, p))
         && (strict && attempt.Some? ==> attempt.value.id == call.id && EchoRow(attempt.value))
       case RoundDone(left) => left == run.remaining && left > 0 && run.response.Some? && (strict ==> Complete(p))
       case Broken(left) => left == run.remaining && run.response.Some?
       case Stopping => run.response.Some? && run.stop.Some? && (strict ==> StopShape(run.stop, p))
       case Loaded => true
       case Ended =>
         run.status == Done || run.status == Failed ==>
           && run.stop.Some? && (run.status == Done <==> run.stop == Some(StopReason.Finished))
           && (strict ==> StopShape(run.stop, p))
  }

  // -------------------------------------------------------------- the whole journal

  function AllProgress(journal: seq<Event>): seq<Step> {
    Kept(journal, 0, |journal|, {})
  }

  ghost predicate TailClean(journal: seq<Event>, from: nat) {
    forall i :: from <= i < |journal| ==> !IsProgressEvent(journal[i])
  }

  ghost predicate SkipClean(journal: seq<Event>, skipped: set<nat>) {
    forall i :: 0 <= i < |journal| && IsProgressEvent(journal[i]) ==> i !in skipped
  }

  /** The shape of the run that restoring `run` from the journal would give. */
  ghost predicate RestoredShape(strict: bool, run: Run, journal: seq<Event>, max: nat) {
    && run.applied <= |journal|
    && var all := AllProgress(journal);
       Shape(strict, all, LastChat(all), RemainingFrom(journal, run.applied, |journal|, run.remaining), max)
  }

  predicate Alive(d: Durable) {
    d.snap.status == Running || d.snap.status == Paused
  }

  predicate AliveRun(run: Run) {
    run.status == Running || run.status == Paused
  }

  /** The rounds left never grow between snapshots except by a response's own record; and
      they equal that record until the round is complete. */
  ghost predicate Charge(strict: bool, journal: seq<Event>, before: Run, run: Run, max: nat) {
    && before.applied <= run.applied <= |journal|
    && run.remaining <= RemainingFrom(journal, before.applied, run.applied, before.remaining)
    && Undiminished(strict, journal, run, max)
  }

  ghost predicate Undiminished(strict: bool, journal: seq<Event>, run: Run, max: nat) {
    run.applied <= |journal| &&
    (strict && !Complete(Progress(run.steps)) ==> run.remaining == RemainingFrom(journal, 0, run.applied, max))
  }

  ghost predicate Charged(strict: bool, d: Durable, s: Run, max: nat) {
    Charge(strict, d.journal, s, d.snap, max) && Undiminished(strict, d.journal, s, max)
  }

  ghost predicate EchoOk(ledger: seq<Attempt>) {
    forall a :: a in ledger ==> EchoRow(a)
  }

  ghost predicate DShape(strict: bool, d: Durable, request: Request) {
    var max := request.maxToolRounds;
    && (forall s :: Saved(d, s) ==> RunShape(strict, s, request))
    && (Alive(d) ==> SkipClean(d.journal, d.skipped))
    && (Alive(d) ==> forall s :: Saved(d, s) ==> Charged(strict, d, s, max))
    && (d.snap.status == Running ==> RestoredShape(strict, d.snap, d.journal, max))
    && Round(AllProgress(d.journal)) <= max + 1
    && (forall s :: s in d.sent ==> s.round <= max)
    && (strict ==> EchoOk(d.ledger))
  }

  ghost predicate CopyShape(strict: bool, d: Durable, c: Live, request: Request) {
    && RunShape(strict, c.run, request) && PcShape(strict, c.run, c.pc)
    && (Alive(d) ==>
          && Charge(strict, d.journal, d.snap, c.run, request.maxToolRounds) && SkipClean(d.journal, c.jumped)
          && (TailClean(d.journal, c.run.applied) || (c.pc.Loaded? && c.run.status != Paused))
          && (c.run.status == Running ==> RestoredShape(strict, c.run, d.journal, request.maxToolRounds)))
    && (d.snap.status == Done || d.snap.status == Failed ==> !AliveRun(c.run))
  }

  // ------------------------------------------------------------------- journal facts

  lemma AllAppend(journal: seq<Event>, e: Event)
    ensures AllProgress(journal + [e]) == AllProgress(journal) + (if IsProgressEvent(e) then [ProgressOf(e).value] else [])
  {
    var after := journal + [e];
    KeptFrame(journal, after, 0, |journal|, {}, {});
    assert after[|journal|] == e;
  }

  lemma {:induction false} RemainingFrame(a: seq<Event>, b: seq<Event>, from: nat, end: nat, before: int)
    requires from <= end <= |a| && a <= b
    ensures RemainingFrom(a, from, end, before) == RemainingFrom(b, from, end, before)
    decreases end
  {
    if end > from { RemainingFrame(a, b, from, end - 1, before); }
  }

  lemma RemainingAppend(journal: seq<Event>, e: Event, from: nat, before: int)
    requires from <= |journal|
    ensures RemainingFrom(journal + [e], from, |journal| + 1, before)
            == if e.kind == ChatCompleted && e.remaining.Some? then e.remaining.value
               else RemainingFrom(journal, from, |journal|, before)
  {
    RemainingFrame(journal, journal + [e], from, |journal|, before);
    assert (journal + [e])[|journal|] == e;
  }

  lemma {:induction false} RemainingCompose(journal: seq<Event>, from: nat, mid: nat, end: nat, before: int)
    requires from <= mid <= end <= |journal|
    ensures RemainingFrom(journal, from, end, before)
            == RemainingFrom(journal, mid, end, RemainingFrom(journal, from, mid, before))
    decreases end
  {
    if end > mid { RemainingCompose(journal, from, mid, end - 1, before); }
  }

  lemma {:induction false} RemainingLe(journal: seq<Event>, from: nat, end: nat, a: int, b: int)
    requires from <= end <= |journal| && a <= b
    ensures RemainingFrom(journal, from, end, a) <= RemainingFrom(journal, from, end, b)
    decreases end
  {
    if end > from { RemainingLe(journal, from, end - 1, a, b); }
  }

  lemma {:induction false} RemainingQuiet(journal: seq<Event>, from: nat, end: nat, before: int, max: nat)
    requires from <= end <= |journal| && JournalOk(journal, max)
    requires forall i :: from <= i < end ==> !IsProgressEvent(journal[i])
    ensures RemainingFrom(journal, from, end, before) == before
    decreases end
  {
    if end > from {
      RemainingQuiet(journal, from, end - 1, before, max);
      assert EventOk(journal[end - 1], max);
    }
  }

  /** A run that has passed over no progress is a view of the whole journal. */
  lemma CleanView(run: Run, journal: seq<Event>, skipped: set<nat>, request: Request)
    requires Faithful(run, journal, skipped, request) && SkipClean(journal, skipped)
    ensures AllProgress(journal) == Progress(run.steps) + Kept(journal, run.applied, |journal|, {})
    ensures TailClean(journal, run.applied) ==> AllProgress(journal) == Progress(run.steps)
  {
    KeptFrame(journal, journal, 0, run.applied, skipped, {});
    KeptSplit(journal, run.applied, |journal|, {});
    if TailClean(journal, run.applied) { KeptQuiet(journal, run.applied, |journal|); }
  }

  lemma {:induction false} KeptQuiet(journal: seq<Event>, from: nat, end: nat)
    requires from <= end <= |journal| && forall i :: from <= i < end ==> !IsProgressEvent(journal[i])
    ensures Kept(journal, from, end, {}) == []
    decreases end
  {
    if end > from { KeptQuiet(journal, from, end - 1); }
  }

  lemma {:induction false} LastChatFrom(journal: seq<Event>, p: seq<Step>, from: nat, end: nat, max: nat)
    requires from <= end <= |journal| && JournalOk(journal, max)
    ensures LastChat(p + Kept(journal, from, end, {})) == ResponseFrom(journal, from, end, LastChat(p))
    decreases end
  {
    var kept := Kept(journal, from, end, {});
    if end == from {
      assert p + kept == p;
    } else {
      LastChatFrom(journal, p, from, end - 1, max);
      var e := journal[end - 1];
      assert EventOk(e, max);
      if IsProgressEvent(e) {
        var q := p + Kept(journal, from, end - 1, {});
        assert p + kept == q + [ProgressOf(e).value];
        if e.kind == ChatCompleted { PushChat(q, ProgressOf(e).value); } else { PushTool(q, ProgressOf(e).value); }
      }
    }
  }

  // --------------------------------------------------------------------- sound writes

  ghost predicate ShapedWrite(strict: bool, d: Durable, request: Request, w: Write) {
    var max := request.maxToolRounds;
    match w
    case Append(e) =>
      && (d.snap.status == Running ==> RestoredShape(strict, d.snap, d.journal + [e], max))
      && Round(AllProgress(d.journal + [e])) <= max + 1
    case Save(run, jumped) =>
      && RunShape(strict, run, request)
      && (AliveRun(run) ==> Alive(d) && SkipClean(d.journal, d.skipped + jumped) && Charge(strict, d.journal, d.snap, run, max))
      && (run.status == Running ==> RestoredShape(strict, run, d.journal, max))
    case Create(a) => strict ==> EchoRow(a)
    case Put(a) => strict ==> EchoRow(a)
    case Resolve(a) => strict ==> EchoRow(a)
    case Send(s) => s.round <= max
  }

  ghost predicate ShapedWrites(strict: bool, d: Durable, request: Request, ws: seq<Write>)
    decreases |ws|
  {
    ws == [] || (ShapedWrite(strict, d, request, ws[0]) && ShapedWrites(strict, Apply(d, ws[0]), request, ws[1..]))
  }

  lemma ChargeFrame(strict: bool, a: seq<Event>, b: seq<Event>, before: Run, run: Run, max: nat)
    requires Charge(strict, a, before, run, max) && a <= b
    ensures Charge(strict, b, before, run, max)
  {
    RemainingFrame(a, b, before.applied, run.applied, before.remaining);
    RemainingFrame(a, b, 0, run.applied, max);
  }

  lemma UndiminishedFrame(strict: bool, a: seq<Event>, b: seq<Event>, run: Run, max: nat)
    requires Undiminished(strict, a, run, max) && a <= b
    ensures Undiminished(strict, b, run, max)
  {
    RemainingFrame(a, b, 0, run.applied, max);
  }

  lemma AppendShapes(strict: bool, d: Durable, request: Request, e: Event)
    requires DurableOk(d, request) && DShape(strict, d, request) && ShapedWrite(strict, d, request, Append(e))
    ensures DShape(strict, Apply(d, Append(e)), request)
  {
    hide RunShape, Charge, RestoredShape, EchoRow, Undiminished, Faithful, JournalOk;
    var after, max := Apply(d, Append(e)), request.maxToolRounds;
    assert forall s :: Saved(after, s) ==> Saved(d, s);
    if Alive(d) {
      assert |d.journal| !in d.skipped by { assert Saved(d, d.snap); StoredWithin(d, request); }
      forall s | Saved(after, s) ensures Charged(strict, after, s, max) {
        ChargeFrame(strict, d.journal, after.journal, s, d.snap, max);
        UndiminishedFrame(strict, d.journal, after.journal, s, max);
      }
    }
  }

  lemma StoredWithin(d: Durable, request: Request)
    requires DurableOk(d, request)
    ensures d.snap.applied <= |d.journal|
  {
    assert Saved(d, d.snap);
  }

  lemma ChargeCompose(strict: bool, journal: seq<Event>, a: Run, b: Run, c: Run, max: nat)
    requires Charge(strict, journal, a, b, max) && Charge(strict, journal, b, c, max)
    ensures Charge(strict, journal, a, c, max)
  {
    RemainingLe(journal, b.applied, c.applied, b.remaining, RemainingFrom(journal, a.applied, b.applied, a.remaining));
    RemainingCompose(journal, a.applied, b.applied, c.applied, a.remaining);
  }

  lemma ChargeSelf(strict: bool, journal: seq<Event>, before: Run, run: Run, max: nat)
    requires Charge(strict, journal, before, run, max)
    ensures Charge(strict, journal, run, run, max) && Undiminished(strict, journal, run, max)
  {
  }

  lemma SaveShapes(strict: bool, d: Durable, request: Request, run: Run, jumped: set<nat>)
    requires DShape(strict, d, request) && ShapedWrite(strict, d, request, Save(run, jumped))
    ensures DShape(strict, Apply(d, Save(run, jumped)), request)
  {
    hide RunShape, Charge, RestoredShape, EchoRow, Undiminished, SkipClean;
    var after, max := Apply(d, Save(run, jumped)), request.maxToolRounds;
    assert forall s :: Saved(after, s) ==> s == run || Saved(d, s);
    if AliveRun(run) {
      ChargeSelf(strict, d.journal, d.snap, run, max);
      forall s | Saved(after, s) ensures Charged(strict, after, s, max) {
        if s != run { ChargeCompose(strict, d.journal, s, d.snap, run, max); }
      }
    }
  }

  lemma LedgerShapes(strict: bool, d: Durable, request: Request, w: Write)
    requires DShape(strict, d, request) && ShapedWrite(strict, d, request, w) && TouchesLedgerOnly(w)
    ensures DShape(strict, Apply(d, w), request)
  {
    hide RunShape, Charge, RestoredShape, EchoRow, Undiminished, SkipClean;
    assert forall s :: Saved(Apply(d, w), s) ==> Saved(d, s);
    if strict && (w.Put? || w.Resolve?) {
      var after := PutAttempt(d.ledger, w.attempt);
      forall a | a in after ensures EchoRow(a) {
        var i :| 0 <= i < |after| && after[i] == a;
      }
    }
  }

  lemma WriteShapes(strict: bool, d: Durable, request: Request, w: Write)
    requires DurableOk(d, request) && DShape(strict, d, request) && ShapedWrite(strict, d, request, w)
    ensures DShape(strict, Apply(d, w), request)
  {
    hide DShape, ShapedWrite, DurableOk;
    match w
    case Append(e) => AppendShapes(strict, d, request, e);
    case Save(run, jumped) => SaveShapes(strict, d, request, run, jumped);
    case _ => LedgerShapes(strict, d, request, w);
  }

  /** Every prefix of sound writes is sound. */
  lemma {:induction false} WritesShape(strict: bool, d: Durable, request: Request, bound: nat, ws: seq<Write>, k: nat)
    requires k <= |ws| && DurableOk(d, request) && DShape(strict, d, request)
    requires GoodWrites(d, request, bound, ws) && ShapedWrites(strict, d, request, ws)
    ensures DShape(strict, ApplyAll(d, ws[..k]), request)
    decreases |ws|
  {
    hide DShape, ShapedWrite, DurableOk, GoodWrite, Apply;
    if k > 0 {
      WriteShapes(strict, d, request, ws[0]);
      KeepsDurable(d, request, bound, ws[0]);
      WritesShape(strict, Apply(d, ws[0]), request, bound, ws[1..], k - 1);
      assert ws[..k][1..] == ws[1..][..k - 1];
    }
  }

  lemma KeepsDurable(d: Durable, request: Request, bound: nat, w: Write)
    requires DurableOk(d, request) && GoodWrite(d, request, bound, w)
    ensures DurableOk(Apply(d, w), request)
  {
    hide DurableOk, GoodWrite, IdsBelow;
    GoodWriteKeeps(d, request, bound, w);
  }

  // ------------------------------------------------------- copies at the journal's end

  /** A copy that has all the progress of the journal, whose snapshot is still alive. */
  ghost predicate Abreast(strict: bool, d: Durable, c: Live, request: Request) {
    && DurableOk(d, request) && InStep(d, c, request) && DShape(strict, d, request) && Alive(d)
    && SkipClean(d.journal, c.jumped) && TailClean(d.journal, c.run.applied)
    && Charge(strict, d.journal, d.snap, c.run, request.maxToolRounds)
    && RunShape(strict, c.run, request)
  }

  lemma AbreastView(strict: bool, d: Durable, c: Live, request: Request)
    requires Abreast(strict, d, c, request)
    ensures AllProgress(d.journal) == Progress(c.run.steps)
    ensures RestoredShape(strict, c.run, d.journal, request.maxToolRounds)
  {
    hide RunShape, Charge, JumpOk;
    assert SkipClean(d.journal, d.skipped + c.jumped);
    CleanView(c.run, d.journal, d.skipped + c.jumped, request);
    RemainingQuiet(d.journal, c.run.applied, |d.journal|, c.run.remaining, request.maxToolRounds);
    ShapeOfRun(strict, c.run, request);
  }

  lemma ShapeOfRun(strict: bool, run: Run, request: Request)
    requires RunShape(strict, run, request)
    ensures Shape(strict, Progress(run.steps), LastChat(Progress(run.steps)), run.remaining, request.maxToolRounds)
  {
  }

  /** The shapes compare equal on these fields. */
  predicate SameWait(a: Run, b: Run) {
    b.status == Paused && b.pause == None ==> a.status == Paused && a.pause == None && a.pendingCalls == b.pendingCalls
  }

  lemma SameRunShape(strict: bool, a: Run, b: Run, request: Request)
    requires RunShape(strict, a, request) && SameWait(a, b)
    requires b.request == a.request && b.steps == a.steps && b.response == a.response && b.remaining == a.remaining
    ensures RunShape(strict, b, request)
  {
  }

  lemma SaveAbreast(strict: bool, d: Durable, c: Live, run: Run, request: Request)
    requires Abreast(strict, d, c, request) && SameCore(run, c.run) && RunShape(strict, run, request)
    ensures ShapedWrite(strict, d, request, Save(run, c.jumped))
    ensures var after := Apply(d, Save(run, c.jumped));
            && DShape(strict, after, request)
            && (AliveRun(run) ==> forall pc, yielded :: Abreast(strict, after, Live(run, pc, yielded, c.jumped), request))
  {
    hide RunShape, RestoredShape, Faithful, JournalOk;
    AbreastView(strict, d, c, request);
    SameRestored(strict, c.run, run, d.journal, request.maxToolRounds);
    ChargeSame(strict, d.journal, d.snap, c.run, run, request.maxToolRounds);
    SaveShapes(strict, d, request, run, c.jumped);
    CoreInStep(d, c, Live(run, c.pc, c.yielded, c.jumped), request);
    SavedAbreast(strict, d, c, run, request);
  }

  lemma SavedAbreast(strict: bool, d: Durable, c: Live, run: Run, request: Request)
    requires DurableOk(d, request) && InStep(d, Live(run, c.pc, c.yielded, c.jumped), request)
    requires DShape(strict, Apply(d, Save(run, c.jumped)), request)
    requires SkipClean(d.journal, c.jumped) && TailClean(d.journal, run.applied)
    requires RunShape(strict, run, request) && Charge(strict, d.journal, d.snap, run, request.maxToolRounds)
    ensures var after := Apply(d, Save(run, c.jumped));
            AliveRun(run) ==> forall pc, yielded :: Abreast(strict, after, Live(run, pc, yielded, c.jumped), request)
  {
    hide RunShape, RestoredShape, Faithful, JournalOk, DShape, DurableOk, JumpOk, SkipClean, TailClean;
    var after, live := Apply(d, Save(run, c.jumped)), Live(run, c.pc, c.yielded, c.jumped);
    SavedStaysInStep(d, live, request);
    ChargeSelf(strict, d.journal, d.snap, run, request.maxToolRounds);
    forall pc, yielded ensures InStep(after, Live(run, pc, yielded, c.jumped), request) {
      CoreInStep(after, live, Live(run, pc, yielded, c.jumped), request);
    }
  }

  lemma SameRestored(strict: bool, a: Run, b: Run, journal: seq<Event>, max: nat)
    requires RestoredShape(strict, a, journal, max) && SameCore(b, a)
    ensures RestoredShape(strict, b, journal, max)
  {
  }

  lemma ChargeSame(strict: bool, journal: seq<Event>, before: Run, a: Run, b: Run, max: nat)
    requires Charge(strict, journal, before, a, max) && SameCore(b, a)
    ensures Charge(strict, journal, before, b, max)
  {
  }

  /** What noting an event does to the shape of the run restored from the stored snapshot. */
  lemma SnapRestores(strict: bool, d: Durable, c: Live, run: Run, e: Event, request: Request)
    requires Abreast(strict, d, c, request) && d.snap.status == Running
    requires Carries(c.run, run, e) && EventOk(e, request.maxToolRounds)
    requires Shape(strict, Progress(run.steps), run.response, run.remaining, request.maxToolRounds)
    ensures RestoredShape(strict, d.snap, d.journal + [e], request.maxToolRounds)
  {
    hide Faithful, JournalOk, DurableOk, InStep, Charge, RunShape, SkipClean, InProtocol, Round;
    var max, all := request.maxToolRounds, AllProgress(d.journal);
    AbreastView(strict, d, c, request);
    AllAppend(d.journal, e);
    RemainingAppend(d.journal, e, d.snap.applied, d.snap.remaining);
    assert AllProgress(d.journal + [e]) == Progress(run.steps);
    if !IsProgressEvent(e) {
      assert all + [] == all;
    } else if e.kind != ChatCompleted {
      PushTool(all, ProgressOf(e).value);
    }
  }

  lemma AppendAbreast(strict: bool, d: Durable, c: Live, run: Run, e: Event, request: Request)
    requires Abreast(strict, d, c, request)
    requires NextEvent(d.journal, e, request.maxToolRounds) && Carries(c.run, run, e)
    requires Shape(strict, Progress(run.steps), run.response, run.remaining, request.maxToolRounds)
    requires RunShape(strict, run, request)
    ensures ShapedWrite(strict, d, request, Append(e))
    ensures forall pc, yielded :: Abreast(strict, Apply(d, Append(e)), Live(Noted(run, e), pc, yielded, Jumped(d, c)), request)
  {
    hide Faithful, JournalOk, Shape, Charge, RunShape, RestoredShape, EventOk, IdsBelow, Progress, Kept, StepIds;
    if d.snap.status == Running { SnapRestores(strict, d, c, run, e, request); }
    AbreastView(strict, d, c, request);
    AllAppend(d.journal, e);
    BudgetOfShape(strict, run, request);
    AppendShapes(strict, d, request, e);
    AppendGood(d, c, run, e, request, e.id.value + 1);
    if e.kind != ChatCompleted && Complete(Progress(c.run.steps)) { CompleteStays(c.run, run, e); }
    NotedCharge(strict, d, c, run, e, request);
    JumpedWithin(d, c, request);
    NotedClean(d, c, run, e);
    SameRunShape(strict, run, Noted(run, e), request);
  }

  lemma BudgetOfShape(strict: bool, run: Run, request: Request)
    requires Shape(strict, Progress(run.steps), run.response, run.remaining, request.maxToolRounds)
    ensures Round(Progress(run.steps)) <= request.maxToolRounds + 1
  {
  }

  lemma CompleteStays(base: Run, run: Run, e: Event)
    requires Carries(base, run, e) && e.kind != ChatCompleted && Complete(Progress(base.steps))
    ensures Complete(Progress(run.steps))
  {
    var p := Progress(base.steps);
    if IsProgressEvent(e) { PushTool(p, ProgressOf(e).value); } else { assert p + [] == p; }
  }

  lemma JumpedWithin(d: Durable, c: Live, request: Request)
    requires DurableOk(d, request) && InStep(d, c, request)
    ensures forall i :: i in c.jumped ==> i < |d.journal|
  {
    StoredWithin(d, request);
  }

  lemma NotedClean(d: Durable, c: Live, run: Run, e: Event)
    requires SkipClean(d.journal, c.jumped) && TailClean(d.journal, c.run.applied)
    requires e.sequence == Some(|d.journal| + 1)
    requires forall i :: i in c.jumped ==> i < |d.journal|
    ensures SkipClean(d.journal + [e], Jumped(d, c)) && TailClean(d.journal + [e], Noted(run, e).applied)
  {
    var after := d.journal + [e];
    forall i | 0 <= i < |after| && IsProgressEvent(after[i]) ensures i !in Jumped(d, c) {
      if i < |d.journal| { assert after[i] == d.journal[i]; }
    }
  }

  lemma NotedCharge(strict: bool, d: Durable, c: Live, run: Run, e: Event, request: Request)
    requires JournalOk(d.journal, request.maxToolRounds) && EventOk(e, request.maxToolRounds)
    requires Charge(strict, d.journal, d.snap, c.run, request.maxToolRounds)
    requires TailClean(d.journal, c.run.applied) && e.sequence == Some(|d.journal| + 1)
    requires run.applied == c.run.applied && run.remaining == c.run.remaining
    requires e.kind == ChatCompleted ==> e.remaining == Some(c.run.remaining)
    requires e.kind != ChatCompleted && strict && !Complete(Progress(run.steps)) ==> !Complete(Progress(c.run.steps))
    ensures Charge(strict, d.journal + [e], d.snap, Noted(run, e), request.maxToolRounds)
  {
    hide JournalOk, Complete;
    var n, max := |d.journal|, request.maxToolRounds;
    RemainingQuiet(d.journal, c.run.applied, n, c.run.remaining, max);
    RemainingCompose(d.journal, d.snap.applied, c.run.applied, n, d.snap.remaining);
    RemainingLe(d.journal, c.run.applied, n, c.run.remaining, RemainingFrom(d.journal, d.snap.applied, c.run.applied, d.snap.remaining));
    RemainingCompose(d.journal, 0, c.run.applied, n, max);
    RemainingQuiet(d.journal, c.run.applied, n, RemainingFrom(d.journal, 0, c.run.applied, max), max);
    RemainingAppend(d.journal, e, d.snap.applied, d.snap.remaining);
    RemainingAppend(d.journal, e, 0, max);
  }

  // --------------------------------------------------------------------- segments

  ghost predicate ShapedSegment(strict: bool, d: Durable, request: Request, seg: Segment) {
    ShapedWrites(strict, d, request, seg.writes)
    && (seg.next.Some? ==> CopyShape(strict, ApplyAll(d, seg.writes), seg.next.value, request))
  }

  lemma ShapedCons(strict: bool, d: Durable, request: Request, w: Write, ws: seq<Write>)
    requires ShapedWrite(strict, d, request, w) && ShapedWrites(strict, Apply(d, w), request, ws)
    ensures ShapedWrites(strict, d, request, [w] + ws) && ApplyAll(d, [w] + ws) == ApplyAll(Apply(d, w), ws)
  {
    hide ShapedWrite, Apply;
    assert ([w] + ws)[1..] == ws;
  }

  lemma ShapedOne(strict: bool, d: Durable, request: Request, w: Write)
    requires ShapedWrite(strict, d, request, w)
    ensures ShapedWrites(strict, d, request, [w]) && ApplyAll(d, [w]) == Apply(d, w)
  {
    hide ShapedWrite, Apply;
    ShapedCons(strict, d, request, w, []);
    assert [w] + [] == [w];
  }

  lemma {:induction false} ShapedConcat(strict: bool, d: Durable, request: Request, a: seq<Write>, b: seq<Write>)
    requires ShapedWrites(strict, d, request, a) && ShapedWrites(strict, ApplyAll(d, a), request, b)
    ensures ShapedWrites(strict, d, request, a + b) && ApplyAll(d, a + b) == ApplyAll(ApplyAll(d, a), b)
    decreases |a|
  {
    hide ShapedWrite, Apply;
    if a == [] {
      assert a + b == b;
    } else {
      ShapedConcat(strict, Apply(d, a[0]), request, a[1..], b);
      ShapedCons(strict, d, request, a[0], a[1..] + b);
      assert [a[0]] + (a[1..] + b) == a + b;
    }
  }

  lemma CopyAbreast(strict: bool, d: Durable, c: Live, request: Request)
    requires DurableOk(d, request) && LiveOk(d, c, request) && DShape(strict, d, request) && CopyShape(strict, d, c, request)
    requires Alive(d) && (!c.pc.Loaded? || c.run.status == Paused)
    ensures Abreast(strict, d, c, request)
  {
    hide DurableOk, DShape, RunShape, PcShape, Charge, Faithful, RestoredShape;
  }

  lemma AbreastCopy(strict: bool, d: Durable, c: Live, request: Request)
    requires Abreast(strict, d, c, request) && PcShape(strict, c.run, c.pc)
    ensures CopyShape(strict, d, c, request)
  {
    hide DurableOk, DShape, RunShape, PcShape, Charge, Faithful, RestoredShape;
    AbreastView(strict, d, c, request);
  }

  /** A copy of a run whose stored snapshot has stopped. */
  lemma StoppedCopy(strict: bool, d: Durable, c: Live, request: Request)
    requires RunShape(strict, c.run, request) && PcShape(strict, c.run, c.pc) && !Alive(d)
    requires d.snap.status == Canceled || !AliveRun(c.run)
    ensures CopyShape(strict, d, c, request)
  {
    hide RunShape, PcShape;
  }

  /** Appending an event and saving the run that notes it. */
  lemma NoteAndSaveShaped(strict: bool, d: Durable, c: Live, run: Run, e: Event, saved: Run, request: Request)
    requires Abreast(strict, d, c, request)
    requires NextEvent(d.journal, e, request.maxToolRounds) && Carries(c.run, run, e)
    requires RunShape(strict, run, request) && RunShape(strict, saved, request) && SameCore(saved, Noted(run, e))
    ensures var ws := [Append(e), Save(saved, Jumped(d, c))];
            var after := ApplyAll(d, ws);
            && ShapedWrites(strict, d, request, ws) && after.snap == saved
            && (AliveRun(saved) ==> forall pc, yielded :: Abreast(strict, after, Live(saved, pc, yielded, Jumped(d, c)), request))
  {
    hide Abreast, RunShape, SameCore, ShapedWrite, Noted, Jumped;
    AppendRunAbreast(strict, d, c, run, e, request);
    var d1, jumped := Apply(d, Append(e)), Jumped(d, c);
    SaveAbreast(strict, d1, Live(Noted(run, e), Ended, false, jumped), saved, request);
    ShapedOne(strict, d1, request, Save(saved, jumped));
    ShapedCons(strict, d, request, Append(e), [Save(saved, jumped)]);
    assert [Append(e)] + [Save(saved, jumped)] == [Append(e), Save(saved, jumped)];
  }

  lemma AppendRunAbreast(strict: bool, d: Durable, c: Live, run: Run, e: Event, request: Request)
    requires Abreast(strict, d, c, request)
    requires NextEvent(d.journal, e, request.maxToolRounds) && Carries(c.run, run, e) && RunShape(strict, run, request)
    ensures ShapedWrite(strict, d, request, Append(e))
    ensures forall pc, yielded :: Abreast(strict, Apply(d, Append(e)), Live(Noted(run, e), pc, yielded, Jumped(d, c)), request)
  {
    hide Abreast, Carries, NextEvent, Shape, Noted, Jumped, ShapedWrite;
    AppendAbreast(strict, d, c, run, e, request);
  }

  /** A persisted event and its snapshot, with the pause that may follow at once. */
  lemma PersistShaped(strict: bool, d: Durable, live: Live, run: Run, e: Event, id: nat, pc: Pc, request: Request)
    requires Abreast(strict, d, live, request) && IdsBelow(d.journal, id)
    requires EventOk(Stamp(e, id, 1), request.maxToolRounds) && Carries(live.run, run, Stamp(e, id, 1))
    requires RunShape(strict, run, request) && PcShape(strict, run, pc)
    ensures ShapedSegment(strict, d, request, Persist(d, live, run, e, id, pc))
  {
    hide RunShape, PcShape, IdsBelow, DurableOk, InStep, DShape, Charge, Carries, Persist, ShapedSegment;
    StampedNext(d, live, run, e, id, request);
    if PausesAt(d, run, e.kind) {
      PersistPausesShaped(strict, d, live, run, e, id, pc, request);
    } else {
      PersistSavesShaped(strict, d, live, run, e, id, pc, request);
    }
  }

  lemma StampedNext(d: Durable, live: Live, run: Run, e: Event, id: nat, request: Request)
    requires IdsBelow(d.journal, id)
    requires EventOk(Stamp(e, id, 1), request.maxToolRounds) && Carries(live.run, run, Stamp(e, id, 1))
    ensures var stamped := Stamp(e, id, |d.journal| + 1);
            NextEvent(d.journal, stamped, request.maxToolRounds) && Carries(live.run, run, stamped)
  {
    hide Progress, StepIds;
  }

  lemma PcShapeNoted(strict: bool, a: Run, b: Run, pc: Pc)
    requires PcShape(strict, a, pc) && a.status == b.status
    requires b.request == a.request && b.steps == a.steps && b.response == a.response && b.remaining == a.remaining && b.stop == a.stop
    ensures PcShape(strict, b, pc)
  {
  }

  lemma PersistSavesShaped(strict: bool, d: Durable, live: Live, run: Run, e: Event, id: nat, pc: Pc, request: Request)
    requires var stamped := Stamp(e, id, |d.journal| + 1);
             NextEvent(d.journal, stamped, request.maxToolRounds) && Carries(live.run, run, stamped)
    requires Abreast(strict, d, live, request) && Alive(d) && !PausesAt(d, run, e.kind)
    requires RunShape(strict, run, request) && PcShape(strict, run, pc)
    ensures ShapedSegment(strict, d, request, Persist(d, live, run, e, id, pc))
  {
    hide *;
    var stamped, jumped := Stamp(e, id, |d.journal| + 1), Jumped(d, live);
    var saved := CarriedOn(d, Noted(run, stamped));
    CarriedCore(d, run, stamped);
    SameRunShape(strict, run, saved, request);
    PcShapeNoted(strict, run, saved, pc);
    NoteAndSaveShaped(strict, d, live, run, stamped, saved, request);
    SavedSegment(strict, d, [Append(stamped), Save(saved, jumped)], Live(saved, pc, true, jumped), request);
    PersistSavesIs(d, live, run, e, id, pc);
  }

  /** The snapshot saved with an event, which takes over a pause request. */
  function CarriedOn(d: Durable, noted: Run): Run {
    if d.snap.status == Running && d.snap.pauseRequest && noted.status == Running then noted.(pauseRequest := true) else noted
  }

  lemma CarriedCore(d: Durable, run: Run, e: Event)
    ensures var saved := CarriedOn(d, Noted(run, e));
            && SameCore(saved, Noted(run, e)) && SameWait(run, saved) && saved.status == run.status
            && saved.request == run.request && saved.steps == run.steps && saved.response == run.response
            && saved.remaining == run.remaining && saved.stop == run.stop
  {
  }

  lemma PersistSavesIs(d: Durable, live: Live, run: Run, e: Event, id: nat, pc: Pc)
    requires Alive(d) && !PausesAt(d, run, e.kind)
    ensures var stamped, jumped := Stamp(e, id, |d.journal| + 1), Jumped(d, live);
            var saved := CarriedOn(d, Noted(run, stamped));
            Persist(d, live, run, e, id, pc)
            == Segment([Append(stamped), Save(saved, jumped)], Some(Live(saved, pc, true, jumped)))
  {
    hide Jumped, Stamp;
  }

  lemma SavedSegment(strict: bool, d: Durable, ws: seq<Write>, next: Live, request: Request)
    requires ShapedWrites(strict, d, request, ws) && ApplyAll(d, ws).snap == next.run
    requires RunShape(strict, next.run, request) && PcShape(strict, next.run, next.pc)
    requires AliveRun(next.run) ==> Abreast(strict, ApplyAll(d, ws), next, request)
    ensures ShapedSegment(strict, d, request, Segment(ws, Some(next)))
  {
    hide RunShape, PcShape, Abreast, CopyShape, ShapedWrites;
    var after := ApplyAll(d, ws);
    if AliveRun(next.run) { AbreastCopy(strict, after, next, request); } else { StoppedCopy(strict, after, next, request); }
  }

  lemma PersistPausesShaped(strict: bool, d: Durable, live: Live, run: Run, e: Event, id: nat, pc: Pc, request: Request)
    requires var stamped := Stamp(e, id, |d.journal| + 1);
             NextEvent(d.journal, stamped, request.maxToolRounds) && Carries(live.run, run, stamped)
    requires Abreast(strict, d, live, request) && PausesAt(d, run, e.kind)
    requires RunShape(strict, run, request) && IdsBelow(d.journal, id)
    ensures ShapedSegment(strict, d, request, Persist(d, live, run, e, id, pc))
  {
    hide Abreast, RunShape, NextEvent, Carries, Shape, ShapedWrites, CopyShape, Stamp, Jumped, IdsBelow, ShapedWrite, PausedAt, Noted, PausesAt;
    var n, jumped := |d.journal| + 1, Jumped(d, live);
    var stamped, p := Stamp(e, id, n), Stamp(BareEvent(RunPaused), id + 1, n + 1);
    var noted := Noted(run, stamped);
    var d1, c1 := Apply(d, Append(stamped)), Live(noted, pc, true, jumped);
    AppendRunAbreast(strict, d, live, run, stamped, request);
    PauseFits(d, live, run, e, id);
    PauseShaped(strict, d1, c1, e.kind, id + 1, request);
    NothingJumped(d, live, run, stamped, pc);
    PersistPausesIs(d, live, run, e, id, pc);
    var paused := PausedAt(noted, e.kind, p);
    ShapedCons(strict, d, request, Append(stamped), [Append(p), Save(paused, jumped), Save(paused, jumped)]);
  }

  lemma PauseFits(d: Durable, live: Live, run: Run, e: Event, id: nat)
    ensures Stamp(e, id, |d.journal| + 1).sequence == Some(|d.journal| + 1)
    ensures IdsBelow(d.journal, id) ==> IdsBelow(d.journal + [Stamp(e, id, |d.journal| + 1)], id + 1)
  {
  }

  lemma NothingJumped(d: Durable, live: Live, run: Run, e: Event, pc: Pc)
    ensures e.sequence == Some(|d.journal| + 1) ==>
              Jumped(Apply(d, Append(e)), Live(Noted(run, e), pc, true, Jumped(d, live))) == Jumped(d, live)
  {
  }

  /** A manual pause: its event, and the paused run saved twice over. */
  lemma PauseShaped(strict: bool, d: Durable, c: Live, kind: EventKind, id: nat, request: Request)
    requires Abreast(strict, d, c, request) && IdsBelow(d.journal, id)
    ensures var p := Stamp(BareEvent(RunPaused), id, |d.journal| + 1);
            var paused, jumped := PausedAt(c.run, kind, p), Jumped(d, c);
            && ShapedWrites(strict, d, request, [Append(p), Save(paused, jumped)])
            && CopyShape(strict, ApplyAll(d, [Append(p), Save(paused, jumped)]), Live(paused, Ended, false, jumped), request)
            && ShapedWrites(strict, d, request, [Append(p), Save(paused, jumped), Save(paused, jumped)])
            && CopyShape(strict, ApplyAll(d, [Append(p), Save(paused, jumped), Save(paused, jumped)]),
                         Live(paused, Ended, false, jumped), request)
  {
    hide RunShape, Carries, NextEvent, ShapedWrite, ShapedWrites, CopyShape, Jumped, DurableOk, InStep, DShape, Charge, SkipClean, TailClean;
    var p := Stamp(BareEvent(RunPaused), id, |d.journal| + 1);
    var paused, jumped := PausedAt(c.run, kind, p), Jumped(d, c);
    SameRunShape(strict, c.run, paused, request);
    QuietCarries(d, c.run, p, id, request);
    NoteAndSaveShaped(strict, d, c, c.run, p, paused, request);
    var first := [Append(p), Save(paused, jumped)];
    var d2, next := ApplyAll(d, first), Live(paused, Ended, false, jumped);
    AbreastCopy(strict, d2, next, request);
    SaveAbreast(strict, d2, next, paused, request);
    ShapedOne(strict, d2, request, Save(paused, jumped));
    ShapedConcat(strict, d, request, first, [Save(paused, jumped)]);
    assert first + [Save(paused, jumped)] == [Append(p), Save(paused, jumped), Save(paused, jumped)];
    AbreastCopy(strict, Apply(d2, Save(paused, jumped)), next, request);
  }

  /** An event that records no progress. */
  lemma QuietCarries(d: Durable, run: Run, e: Event, id: nat, request: Request)
    requires IdsBelow(d.journal, id) && e.id == Some(id) && e.sequence == Some(|d.journal| + 1)
    requires e.kind !in {ChatCompleted, ToolCompleted, ToolFailed} && (e.kind == RunStopped ==> e.stop != OtherText)
    ensures NextEvent(d.journal, e, request.maxToolRounds) && Carries(run, run, e)
  {
    assert Progress(run.steps) + [] == Progress(run.steps);
  }
}
