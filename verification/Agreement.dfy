/** Crash and replay agree: what the journal rebuilds over any earlier snapshot is what the
    live execution had, one execution of the run at a time, with crashes anywhere. */
module Agreement {
  import opened Wrappers
  import opened Runs
  import opened Recovery
  import opened Machine

  // ------------------------------------------------------------ views of a journal

  predicate IsProgressEvent(e: Event) {
    ProgressOf(e).Some?
  }

  /** Model responses, tool results and tool errors, in order and without event ids. */
  function Progress(steps: seq<Step>): seq<Step> {
    if steps == [] then []
    else
      var before, last := Progress(steps[..|steps| - 1]), steps[|steps| - 1];
      if IsProgress(last) then before + [last.(eventId := None)] else before
  }

  /** The progress recorded by the journal positions [from, to) that nobody skipped. */
  function Kept(journal: seq<Event>, from: nat, end: nat, skipped: set<nat>): seq<Step>
    requires from <= end <= |journal|
    decreases end
  {
    if end == from then []
    else
      var before := Kept(journal, from, end - 1, skipped);
      if IsProgressEvent(journal[end - 1]) && end - 1 !in skipped
      then before + [ProgressOf(journal[end - 1]).value] else before
  }

  function LastResponse(journal: seq<Event>, end: nat, skipped: set<nat>): Option<Response>
    requires end <= |journal|
  {
    if end == 0 then None
    else if journal[end - 1].kind == ChatCompleted && end - 1 !in skipped then journal[end - 1].response
    else LastResponse(journal, end - 1, skipped)
  }

  /** The rounds left that the last response recorded, or the budget before the first one. */
  function LastRemaining(journal: seq<Event>, end: nat, skipped: set<nat>, max: nat): int
    requires end <= |journal|
  {
    if end == 0 then max
    else if journal[end - 1].kind == ChatCompleted && end - 1 !in skipped && journal[end - 1].remaining.Some?
    then journal[end - 1].remaining.value
    else LastRemaining(journal, end - 1, skipped, max)
  }

  ghost predicate NoneSkipped(journal: seq<Event>, skipped: set<nat>, from: nat) {
    forall i :: from <= i < |journal| && IsProgressEvent(journal[i]) ==> i !in skipped
  }

  lemma {:induction false} KeptFrame(a: seq<Event>, b: seq<Event>, from: nat, end: nat, s: set<nat>, t: set<nat>)
    requires from <= end <= |a| && end <= |b|
    requires forall i :: from <= i < end ==> a[i] == b[i]
    requires forall i :: from <= i < end && IsProgressEvent(a[i]) ==> (i in s <==> i in t)
    ensures Kept(a, from, end, s) == Kept(b, from, end, t)
    decreases end
  {
    if end > from { KeptFrame(a, b, from, end - 1, s, t); }
  }

  lemma {:induction false} LastFrame(a: seq<Event>, b: seq<Event>, end: nat, s: set<nat>, t: set<nat>, max: nat)
    requires end <= |a| && end <= |b|
    requires forall i :: 0 <= i < end ==> a[i] == b[i] && EventOk(a[i], max)
    requires forall i :: 0 <= i < end && IsProgressEvent(a[i]) ==> (i in s <==> i in t)
    ensures LastResponse(a, end, s) == LastResponse(b, end, t)
    ensures LastRemaining(a, end, s, max) == LastRemaining(b, end, t, max)
  {
    if end > 0 { LastFrame(a, b, end - 1, s, t, max); }
  }

  lemma {:induction false} KeptSplit(journal: seq<Event>, mid: nat, end: nat, skipped: set<nat>)
    requires mid <= end <= |journal|
    ensures Kept(journal, 0, end, skipped) == Kept(journal, 0, mid, skipped) + Kept(journal, mid, end, skipped)
    decreases end
  {
    if end > mid { KeptSplit(journal, mid, end - 1, skipped); }
  }

  /** Positions that were skipped add nothing to a view. */
  lemma {:induction false} KeptSkips(journal: seq<Event>, from: nat, end: nat, skipped: set<nat>, max: nat)
    requires from <= end <= |journal|
    requires forall i :: from <= i < end ==> i in skipped
    ensures Kept(journal, 0, end, skipped) == Kept(journal, 0, from, skipped)
    ensures LastResponse(journal, end, skipped) == LastResponse(journal, from, skipped)
    ensures LastRemaining(journal, end, skipped, max) == LastRemaining(journal, from, skipped, max)
    decreases end
  {
    if end > from { KeptSkips(journal, from, end - 1, skipped, max); }
  }

  // ------------------------------------------------------------------- invariant

  /** An event as the application writes it. */
  predicate EventOk(e: Event, max: nat) {
    && e.id.Some?
    && (e.kind == ChatCompleted ==>
          e.response.Some? && e.remaining.Some? && 0 <= e.remaining.value <= max)
    && ((e.kind == ToolCompleted || e.kind == ToolFailed) ==> e.call.Some?)
    && (e.kind == RunStopped ==> e.stop != OtherText)
  }

  ghost predicate JournalOk(journal: seq<Event>, max: nat) {
    && (forall i :: 0 <= i < |journal| ==> EventOk(journal[i], max) && journal[i].sequence == Some(i + 1))
    && (forall i, j :: 0 <= i < j < |journal| ==> journal[i].id.value < journal[j].id.value)
  }

  ghost predicate IdKnown(journal: seq<Event>, end: nat, id: nat) {
    exists i :: 0 <= i < end && i < |journal| && journal[i].id == Some(id)
  }

  /** A snapshot, or a live copy, is the view of the journal up to its watermark. */
  ghost predicate Faithful(run: Run, journal: seq<Event>, skipped: set<nat>, request: Request) {
    && run.request == request
    && run.applied <= |journal|
    && Progress(run.steps) == Kept(journal, 0, run.applied, skipped)
    && run.response == LastResponse(journal, run.applied, skipped)
    && 0 <= run.remaining <= LastRemaining(journal, run.applied, skipped, request.maxToolRounds)
    && LastRemaining(journal, run.applied, skipped, request.maxToolRounds) <= request.maxToolRounds
    && (run.response == None ==> run.remaining == request.maxToolRounds)
    && (forall id :: id in StepIds(run.steps) ==> IdKnown(journal, run.applied, id))
    && (forall t :: t in run.trace ==> Noticed(journal, run.applied, t))
    && Traced(run, journal, skipped)
  }

  ghost predicate Noticed(journal: seq<Event>, end: nat, e: Event) {
    exists i :: 0 <= i < end && i < |journal| && journal[i] == e
  }

  /** The trace of a run holds the progress events up to its watermark that it has not passed over. */
  ghost predicate Traced(run: Run, journal: seq<Event>, skipped: set<nat>)
    requires run.applied <= |journal|
  {
    forall i :: 0 <= i < run.applied && IsProgressEvent(journal[i]) ==> (journal[i] in run.trace <==> i !in skipped)
  }

  /** The rounds left according to the responses of a stretch of the journal, or `before`. */
  function LeftFrom(journal: seq<Event>, from: nat, end: nat, before: int, skipped: set<nat>): int
    requires from <= end <= |journal|
    decreases end
  {
    if end == from then before
    else if journal[end - 1].kind == ChatCompleted && journal[end - 1].remaining.Some? && end - 1 !in skipped
    then journal[end - 1].remaining.value
    else LeftFrom(journal, from, end - 1, before, skipped)
  }

  lemma {:induction false} LeftFrame(a: seq<Event>, b: seq<Event>, from: nat, end: nat, before: int, s: set<nat>, t: set<nat>)
    requires from <= end <= |a| && a <= b && forall i: nat :: from <= i < end ==> (i in s <==> i in t)
    ensures LeftFrom(a, from, end, before, s) == LeftFrom(b, from, end, before, t)
    decreases end
  {
    if end > from { LeftFrame(a, b, from, end - 1, before, s, t); }
  }

  lemma {:induction false} LeftCompose(journal: seq<Event>, from: nat, mid: nat, end: nat, before: int, skipped: set<nat>)
    requires from <= mid <= end <= |journal|
    ensures LeftFrom(journal, from, end, before, skipped)
            == LeftFrom(journal, mid, end, LeftFrom(journal, from, mid, before, skipped), skipped)
    decreases end
  {
    if end > mid { LeftCompose(journal, from, mid, end - 1, before, skipped); }
  }

  lemma {:induction false} LeftLe(journal: seq<Event>, from: nat, end: nat, a: int, b: int, skipped: set<nat>)
    requires from <= end <= |journal| && a <= b
    ensures LeftFrom(journal, from, end, a, skipped) <= LeftFrom(journal, from, end, b, skipped)
    decreases end
  {
    if end > from { LeftLe(journal, from, end - 1, a, b, skipped); }
  }

  lemma {:induction false} LeftSkips(journal: seq<Event>, from: nat, mid: nat, end: nat, before: int, skipped: set<nat>)
    requires from <= mid <= end <= |journal| && forall i: nat :: mid <= i < end ==> i in skipped
    ensures LeftFrom(journal, from, end, before, skipped) == LeftFrom(journal, from, mid, before, skipped)
    decreases end
  {
    if end > mid { LeftSkips(journal, from, mid, end - 1, before, skipped); }
  }

  /** Between two views of a run its rounds left never grow but by a response's own record. */
  predicate Spent(journal: seq<Event>, a: Run, b: Run, skipped: set<nat>) {
    a.applied <= b.applied <= |journal| && b.remaining <= LeftFrom(journal, a.applied, b.applied, a.remaining, skipped)
  }

  lemma SpentFrame(a: seq<Event>, b: seq<Event>, old_: Run, run: Run, s: set<nat>, t: set<nat>)
    requires Spent(a, old_, run, s) && a <= b && forall i: nat :: i < run.applied ==> (i in s <==> i in t)
    ensures Spent(b, old_, run, t)
  {
    LeftFrame(a, b, old_.applied, run.applied, old_.remaining, s, t);
  }

  lemma SpentCompose(journal: seq<Event>, a: Run, b: Run, c: Run, skipped: set<nat>)
    requires Spent(journal, a, b, skipped) && Spent(journal, b, c, skipped)
    ensures Spent(journal, a, c, skipped)
  {
    LeftLe(journal, b.applied, c.applied, b.remaining, LeftFrom(journal, a.applied, b.applied, a.remaining, skipped), skipped);
    LeftCompose(journal, a.applied, b.applied, c.applied, a.remaining, skipped);
  }

  predicate Saved(d: Durable, run: Run) {
    run == d.snap || run in d.earlier
  }

  ghost predicate DurableOk(d: Durable, request: Request) {
    && JournalOk(d.journal, request.maxToolRounds)
    && (forall s :: Saved(d, s) ==> Faithful(s, d.journal, d.skipped, request) && Spent(d.journal, s, d.snap, d.skipped))
    && (forall i :: i in d.skipped ==> i < d.snap.applied)
  }

  /** A copy passed over positions that the stored snapshot has not reached or has skipped too. */
  ghost predicate JumpOk(d: Durable, run: Run, jumped: set<nat>) {
    && Spent(d.journal, d.snap, run, d.skipped + jumped)
    && (forall i :: i in jumped ==> i in d.skipped || d.snap.applied <= i < run.applied)
  }

  ghost predicate IdsBelow(journal: seq<Event>, bound: nat) {
    forall i :: 0 <= i < |journal| && journal[i].id.Some? ==> journal[i].id.value < bound
  }

  /** A next event of the journal. */
  ghost predicate NextEvent(journal: seq<Event>, e: Event, max: nat) {
    EventOk(e, max) && e.sequence == Some(|journal| + 1) && IdsBelow(journal, e.id.value)
  }

  /** The writes that keep the invariant, each judged where it is applied. */
  ghost predicate GoodWrite(d: Durable, request: Request, bound: nat, w: Write) {
    match w
    case Append(e) => NextEvent(d.journal, e, request.maxToolRounds) && e.id.value < bound
    case Save(run, jumped) => Faithful(run, d.journal, d.skipped + jumped, request) && JumpOk(d, run, jumped)
    case _ => true
  }

  ghost predicate GoodWrites(d: Durable, request: Request, bound: nat, ws: seq<Write>)
    decreases |ws|
  {
    ws == [] || (GoodWrite(d, request, bound, ws[0]) && GoodWrites(Apply(d, ws[0]), request, bound, ws[1..]))
  }

  lemma FaithfulFrame(run: Run, a: seq<Event>, b: seq<Event>, s: set<nat>, t: set<nat>, request: Request)
    requires Faithful(run, a, s, request)
    requires JournalOk(a, request.maxToolRounds) && a <= b
    requires forall i: nat :: i < run.applied ==> (i in s <==> i in t)
    ensures Faithful(run, b, t, request)
  {
    KeptFrame(a, b, 0, run.applied, s, t);
    LastFrame(a, b, run.applied, s, t, request.maxToolRounds);
    forall id | id in StepIds(run.steps) ensures IdKnown(b, run.applied, id) {
      var i :| 0 <= i < run.applied && i < |a| && a[i].id == Some(id);
      assert b[i].id == Some(id);
    }
    forall t | t in run.trace ensures Noticed(b, run.applied, t) {
      var i :| 0 <= i < run.applied && i < |a| && a[i] == t;
      assert b[i] == t;
    }
    assert forall i :: 0 <= i < run.applied ==> a[i] == b[i];
  }

  lemma AppendKeeps(d: Durable, request: Request, bound: nat, e: Event)
    requires DurableOk(d, request) && GoodWrite(d, request, bound, Append(e))
    ensures DurableOk(Apply(d, Append(e)), request)
  {
    hide Faithful, JournalOk, Spent;
    var after := Apply(d, Append(e));
    OneMoreEvent(d.journal, e, request.maxToolRounds);
    forall s | Saved(after, s)
      ensures Faithful(s, after.journal, after.skipped, request) && Spent(after.journal, s, after.snap, after.skipped)
    {
      assert Saved(d, s);
      FaithfulFrame(s, d.journal, after.journal, d.skipped, after.skipped, request);
      SpentFrame(d.journal, after.journal, s, d.snap, d.skipped, after.skipped);
    }
  }

  lemma OneMoreEvent(journal: seq<Event>, e: Event, max: nat)
    requires JournalOk(journal, max) && NextEvent(journal, e, max)
    ensures JournalOk(journal + [e], max)
  {
  }

  lemma SaveKeeps(d: Durable, request: Request, bound: nat, run: Run, jumped: set<nat>)
    requires DurableOk(d, request) && GoodWrite(d, request, bound, Save(run, jumped))
    ensures DurableOk(Apply(d, Save(run, jumped)), request)
  {
    hide Faithful, JournalOk, Spent;
    var after := Apply(d, Save(run, jumped));
    SpentSelf(d.journal, d.snap, run, after.skipped);
    forall s | Saved(after, s)
      ensures Faithful(s, after.journal, after.skipped, request) && Spent(after.journal, s, run, after.skipped)
    {
      if s != run {
        assert Saved(d, s);
        SpentWithin(d.journal, s, d.snap, d.skipped);
        FaithfulFrame(s, d.journal, after.journal, d.skipped, after.skipped, request);
        SpentFrame(d.journal, d.journal, s, d.snap, d.skipped, after.skipped);
        SpentCompose(d.journal, s, d.snap, run, after.skipped);
      }
    }
  }

  lemma SpentSelf(journal: seq<Event>, a: Run, run: Run, skipped: set<nat>)
    requires Spent(journal, a, run, skipped)
    ensures Spent(journal, run, run, skipped) && a.applied <= run.applied
  {
  }

  lemma SpentWithin(journal: seq<Event>, a: Run, b: Run, skipped: set<nat>)
    requires Spent(journal, a, b, skipped)
    ensures a.applied <= b.applied
  {
  }

  lemma GoodWriteKeeps(d: Durable, request: Request, bound: nat, w: Write)
    requires DurableOk(d, request) && GoodWrite(d, request, bound, w)
    ensures DurableOk(Apply(d, w), request)
    ensures IdsBelow(d.journal, bound) ==> IdsBelow(Apply(d, w).journal, bound)
  {
    match w
    case Append(e) => AppendKeeps(d, request, bound, e);
    case Save(run, jumped) => SaveKeeps(d, request, bound, run, jumped);
    case _ => assert forall s :: Saved(Apply(d, w), s) ==> Saved(d, s);
  }

  /** Every prefix of good writes is good: a crash cannot break the invariant. */
  lemma {:induction false} GoodWritesKeep(d: Durable, request: Request, bound: nat, ws: seq<Write>, k: nat)
    requires k <= |ws|
    requires DurableOk(d, request) && IdsBelow(d.journal, bound) && GoodWrites(d, request, bound, ws)
    ensures DurableOk(ApplyAll(d, ws[..k]), request) && IdsBelow(ApplyAll(d, ws[..k]).journal, bound)
    decreases |ws|
  {
    if k > 0 {
      GoodWriteKeeps(d, request, bound, ws[0]);
      GoodWritesKeep(Apply(d, ws[0]), request, bound, ws[1..], k - 1);
      assert ws[..k][1..] == ws[1..][..k - 1];
    }
  }

  // ------------------------------------------------------------------ live copies

  predicate PcOk(run: Run, pc: Pc) {
    match pc
    case Fresh => run.response == None
    case Loaded => true
    case Chatting(left) => left == run.remaining
    case Calling(_, left) => left == run.remaining && run.response.Some?
    case Executing(_, _, left) => left == run.remaining && left > 0 && run.response.Some?
    case InTool(_, _, left, _) => left == run.remaining && left > 0 && run.response.Some?
    case RoundDone(left) => left == run.remaining && left > 0 && run.response.Some?
    case Broken(left) => left == run.remaining && run.response.Some?
    case Stopping => true
    case Ended => true
  }

  /** A live copy is faithful too, unless the run was canceled behind its back. */
  ghost predicate LiveOk(d: Durable, live: Live, request: Request) {
    d.snap.status == Canceled ||
    (&& Faithful(live.run, d.journal, d.skipped + live.jumped, request)
     && JumpOk(d, live.run, live.jumped)
     && PcOk(live.run, live.pc))
  }

  ghost predicate GoodSegment(d: Durable, request: Request, bound: nat, seg: Segment) {
    GoodWrites(d, request, bound, seg.writes)
    && (seg.next.Some? ==> LiveOk(ApplyAll(d, seg.writes), seg.next.value, request))
  }

  /** What may change in a copy before it notes an event: the progress the event stands for. */
  ghost predicate Carries(base: Run, run: Run, e: Event) {
    && run.request == base.request && run.applied == base.applied && run.trace == base.trace
    && run.remaining == base.remaining
    && Progress(run.steps) == Progress(base.steps) + (if IsProgressEvent(e) then [ProgressOf(e).value] else [])
    && run.response == (if e.kind == ChatCompleted then e.response else base.response)
    && (e.kind == ChatCompleted ==> e.remaining == Some(base.remaining))
    && e.id.Some? && StepIds(run.steps) <= StepIds(base.steps) + {e.id.value}
  }

  /** The views of a journal after one more event, for a copy that passed over [at, |journal|). */
  lemma NextViews(journal: seq<Event>, e: Event, at: nat, before: set<nat>, skipped: set<nat>, max: nat)
    requires JournalOk(journal, max) && at <= |journal| && EventOk(e, max)
    requires forall i: nat :: i < at ==> (i in before <==> i in skipped)
    requires forall i: nat :: at <= i < |journal| ==> i in skipped
    requires |journal| !in skipped
    ensures var after, n := journal + [e], |journal| + 1;
            && Kept(after, 0, n, skipped)
               == Kept(journal, 0, at, before) + (if IsProgressEvent(e) then [ProgressOf(e).value] else [])
            && LastResponse(after, n, skipped)
               == (if e.kind == ChatCompleted then e.response else LastResponse(journal, at, before))
            && LastRemaining(after, n, skipped, max)
               == (if e.kind == ChatCompleted then e.remaining.value else LastRemaining(journal, at, before, max))
  {
    var after := journal + [e];
    KeptFrame(journal, after, 0, at, before, skipped);
    LastFrame(journal, after, at, before, skipped, max);
    KeptSkips(after, at, |journal|, skipped, max);
    assert after[|journal|] == e;
  }

  lemma NotedIds(journal: seq<Event>, base: Run, run: Run, e: Event)
    requires base.applied <= |journal|
    requires forall id :: id in StepIds(base.steps) ==> IdKnown(journal, base.applied, id)
    requires e.id.Some? && StepIds(run.steps) <= StepIds(base.steps) + {e.id.value}
    ensures forall id :: id in StepIds(run.steps) ==> IdKnown(journal + [e], |journal| + 1, id)
  {
    var after := journal + [e];
    forall id | id in StepIds(run.steps) ensures IdKnown(after, |journal| + 1, id) {
      if id != e.id.value {
        var i :| 0 <= i < base.applied && i < |journal| && journal[i].id == Some(id);
        assert after[i].id == Some(id);
      } else {
        assert after[|journal|].id == Some(id);
      }
    }
  }

  lemma NotedTrace(journal: seq<Event>, base: Run, run: Run, e: Event, before: set<nat>, skipped: set<nat>, max: nat)
    requires JournalOk(journal, max) && NextEvent(journal, e, max) && base.applied <= |journal| && run.trace == base.trace
    requires (forall t :: t in base.trace ==> Noticed(journal, base.applied, t)) && Traced(base, journal, before)
    requires forall i: nat :: i < base.applied ==> (i in before <==> i in skipped)
    requires forall i: nat :: base.applied <= i < |journal| ==> i in skipped
    requires |journal| !in skipped
    ensures var noted, after := Noted(run, e), journal + [e];
            && (forall t :: t in noted.trace ==> Noticed(after, noted.applied, t))
            && noted.applied == |after| && Traced(noted, after, skipped)
  {
    var noted, after := Noted(run, e), journal + [e];
    forall t | t in noted.trace ensures Noticed(after, |after|, t) {
      if t in base.trace {
        var i :| 0 <= i < base.applied && i < |journal| && journal[i] == t;
        assert after[i] == t;
      } else {
        assert after[|journal|] == t;
      }
    }
    forall i | 0 <= i < |after| && IsProgressEvent(after[i]) ensures after[i] in noted.trace <==> i !in skipped {
      if i < |journal| {
        assert after[i] == journal[i] && journal[i] != e;
        if i >= base.applied { PassedIsUntraced(journal, base, i, max); }
      }
    }
  }

  lemma PassedIsUntraced(journal: seq<Event>, base: Run, i: nat, max: nat)
    requires JournalOk(journal, max) && base.applied <= i < |journal|
    requires forall t :: t in base.trace ==> Noticed(journal, base.applied, t)
    ensures journal[i] !in base.trace
  {
    forall j | 0 <= j < base.applied ensures journal[j] != journal[i] {
      assert journal[j].id.value < journal[i].id.value;
    }
  }

  lemma NotedSpent(journal: seq<Event>, snap: Run, base: Run, run: Run, e: Event, before: set<nat>, skipped: set<nat>)
    requires Spent(journal, snap, base, before) && run.remaining == base.remaining && e.sequence == Some(|journal| + 1)
    requires e.kind == ChatCompleted ==> e.remaining == Some(base.remaining)
    requires forall i: nat :: i < base.applied ==> (i in before <==> i in skipped)
    requires forall i: nat :: base.applied <= i < |journal| ==> i in skipped
    requires |journal| !in skipped
    ensures Spent(journal + [e], snap, Noted(run, e), skipped)
  {
    var after := journal + [e];
    SpentFrame(journal, after, snap, base, before, skipped);
    LeftSkips(after, snap.applied, base.applied, |journal|, snap.remaining, skipped);
    assert after[|journal|] == e;
  }

  lemma NotedFaithful(d: Durable, live: Live, run: Run, e: Event, request: Request)
    requires DurableOk(d, request)
    requires Faithful(live.run, d.journal, d.skipped + live.jumped, request) && JumpOk(d, live.run, live.jumped)
    requires NextEvent(d.journal, e, request.maxToolRounds) && Carries(live.run, run, e)
    ensures Faithful(Noted(run, e), d.journal + [e], d.skipped + Jumped(d, live), request)
    ensures JumpOk(Apply(d, Append(e)), Noted(run, e), Jumped(d, live))
  {
    hide StepIds, Kept, JournalOk, Traced, Noticed, LeftFrom;
    NextViews(d.journal, e, live.run.applied, d.skipped + live.jumped, d.skipped + Jumped(d, live), request.maxToolRounds);
    NotedIds(d.journal, live.run, run, e);
    NotedTrace(d.journal, live.run, run, e, d.skipped + live.jumped, d.skipped + Jumped(d, live), request.maxToolRounds);
    NotedSpent(d.journal, d.snap, live.run, run, e, d.skipped + live.jumped, d.skipped + Jumped(d, live));
  }

  /** Faithfulness looks at these fields only. */
  predicate SameCore(a: Run, b: Run) {
    a.request == b.request && a.applied == b.applied && a.steps == b.steps && a.response == b.response
    && a.remaining == b.remaining && a.trace == b.trace
  }

  lemma GoodCons(d: Durable, request: Request, bound: nat, w: Write, ws: seq<Write>)
    requires GoodWrite(d, request, bound, w) && GoodWrites(Apply(d, w), request, bound, ws)
    ensures GoodWrites(d, request, bound, [w] + ws)
    ensures ApplyAll(d, [w] + ws) == ApplyAll(Apply(d, w), ws)
  {
    assert ([w] + ws)[1..] == ws;
  }

  ghost predicate InStep(d: Durable, live: Live, request: Request) {
    Faithful(live.run, d.journal, d.skipped + live.jumped, request) && JumpOk(d, live.run, live.jumped)
  }

  lemma SaveGood(d: Durable, live: Live, request: Request, bound: nat)
    requires DurableOk(d, request) && InStep(d, live, request)
    ensures var save := Save(live.run, live.jumped);
            && GoodWrite(d, request, bound, save)
            && GoodWrites(d, request, bound, [save])
            && DurableOk(Apply(d, save), request)
            && ApplyAll(d, [save]) == Apply(d, save)
            && InStep(Apply(d, save), live, request)
  {
    var save := Save(live.run, live.jumped);
    SaveKeeps(d, request, bound, live.run, live.jumped);
    ApplyOne(d, save);
    GoodCons(d, request, bound, save, []);
    assert [save] + [] == [save];
    assert Apply(d, save).skipped + live.jumped == d.skipped + live.jumped;
  }

  lemma SaveTwiceGood(d: Durable, live: Live, request: Request, bound: nat)
    requires DurableOk(d, request) && InStep(d, live, request)
    ensures var save := Save(live.run, live.jumped);
            && GoodWrites(d, request, bound, [save, save])
            && InStep(ApplyAll(d, [save, save]), live, request)
  {
    var save := Save(live.run, live.jumped);
    SaveGood(d, live, request, bound);
    SaveGood(Apply(d, save), live, request, bound);
    GoodCons(d, request, bound, save, [save]);
    assert [save] + [save] == [save, save];
  }

  lemma AppendGood(d: Durable, live: Live, run: Run, e: Event, request: Request, bound: nat)
    requires DurableOk(d, request) && InStep(d, live, request)
    requires NextEvent(d.journal, e, request.maxToolRounds) && e.id.value < bound && Carries(live.run, run, e)
    ensures var d1 := Apply(d, Append(e));
            && GoodWrite(d, request, bound, Append(e)) && DurableOk(d1, request)
            && forall pc, yielded :: InStep(d1, Live(Noted(run, e), pc, yielded, Jumped(d, live)), request)
  {
    NotedFaithful(d, live, run, e, request);
    AppendKeeps(d, request, bound, e);
  }

  lemma CoreInStep(d: Durable, a: Live, b: Live, request: Request)
    requires InStep(d, a, request) && SameCore(a.run, b.run) && a.jumped == b.jumped
    ensures InStep(d, b, request)
  {
  }

  lemma PersistGood(d: Durable, live: Live, run: Run, e: Event, id: nat, pc: Pc, request: Request)
    requires DurableOk(d, request) && LiveOk(d, live, request) && IdsBelow(d.journal, id)
    requires EventOk(Stamp(e, id, 1), request.maxToolRounds) && Carries(live.run, run, Stamp(e, id, 1))
    requires PcOk(run, pc)
    ensures GoodSegment(d, request, id + 2, Persist(d, live, run, e, id, pc))
  {
    if d.snap.status != Canceled {
      var stamped := Stamp(e, id, |d.journal| + 1);
      AppendGood(d, live, run, stamped, request, id + 2);
      if PausesAt(d, run, e.kind) {
        PersistPauses(d, live, run, e, id, pc, request);
      } else {
        PersistSaves(d, live, run, e, id, pc, request);
      }
    }
  }

  lemma PersistPauses(d: Durable, live: Live, run: Run, e: Event, id: nat, pc: Pc, request: Request)
    requires var stamped, n := Stamp(e, id, |d.journal| + 1), |d.journal| + 1;
             && GoodWrite(d, request, id + 2, Append(stamped))
             && DurableOk(Apply(d, Append(stamped)), request)
             && InStep(Apply(d, Append(stamped)), Live(Noted(run, stamped), pc, true, Jumped(d, live)), request)
    requires IdsBelow(d.journal, id) && PausesAt(d, run, e.kind)
    ensures GoodSegment(d, request, id + 2, Persist(d, live, run, e, id, pc))
  {
    var n, jumped := |d.journal| + 1, Jumped(d, live);
    var stamped := Stamp(e, id, n);
    var noted := Noted(run, stamped);
    PausedGood(Apply(d, Append(stamped)), Live(noted, pc, true, jumped), e.kind, id + 1, request);
    var p := Stamp(BareEvent(RunPaused), id + 1, n + 1);
    var paused := Live(PausedAt(noted, e.kind, p), Ended, false, jumped);
    var save := Save(paused.run, jumped);
    SegmentCons(d, request, id + 2, Append(stamped), [Append(p), save, save], paused);
    PersistPausesIs(d, live, run, e, id, pc);
  }

  lemma PersistPausesIs(d: Durable, live: Live, run: Run, e: Event, id: nat, pc: Pc)
    requires PausesAt(d, run, e.kind)
    ensures var n, jumped := |d.journal| + 1, Jumped(d, live);
            var p := Stamp(BareEvent(RunPaused), id + 1, n + 1);
            var paused := PausedAt(Noted(run, Stamp(e, id, n)), e.kind, p);
            Persist(d, live, run, e, id, pc)
            == Segment([Append(Stamp(e, id, n))] + [Append(p), Save(paused, jumped), Save(paused, jumped)],
                       Some(Live(paused, Ended, false, jumped)))
  {
  }

  lemma SegmentCons(d: Durable, request: Request, bound: nat, w: Write, ws: seq<Write>, next: Live)
    requires GoodWrite(d, request, bound, w) && GoodWrites(Apply(d, w), request, bound, ws)
    requires InStep(ApplyAll(Apply(d, w), ws), next, request) && PcOk(next.run, next.pc)
    ensures GoodSegment(d, request, bound, Segment([w] + ws, Some(next)))
  {
    GoodCons(d, request, bound, w, ws);
  }

  lemma PersistSaves(d: Durable, live: Live, run: Run, e: Event, id: nat, pc: Pc, request: Request)
    requires var stamped := Stamp(e, id, |d.journal| + 1);
             && GoodWrite(d, request, id + 2, Append(stamped))
             && DurableOk(Apply(d, Append(stamped)), request)
             && InStep(Apply(d, Append(stamped)), Live(Noted(run, stamped), pc, true, Jumped(d, live)), request)
    requires d.snap.status != Canceled && !PausesAt(d, run, e.kind)
    requires PcOk(run, pc)
    ensures GoodSegment(d, request, id + 2, Persist(d, live, run, e, id, pc))
  {
    hide Faithful, DurableOk, JumpOk, GoodWrite;
    var stamped, jumped := Stamp(e, id, |d.journal| + 1), Jumped(d, live);
    var noted := Noted(run, stamped);
    var d1 := Apply(d, Append(stamped));
    var saved := if d.snap.status == Running && d.snap.pauseRequest && noted.status == Running
                 then noted.(pauseRequest := true) else noted;
    CoreInStep(d1, Live(noted, pc, true, jumped), Live(saved, pc, true, jumped), request);
    SaveGood(d1, Live(saved, pc, true, jumped), request, id + 2);
    GoodCons(d, request, id + 2, Append(stamped), [Save(saved, jumped)]);
    assert Persist(d, live, run, e, id, pc).writes == [Append(stamped)] + [Save(saved, jumped)];
  }

  lemma PausedGood(d: Durable, live: Live, kind: EventKind, id: nat, request: Request)
    requires DurableOk(d, request) && IdsBelow(d.journal, id) && InStep(d, live, request)
    requires live.run.applied == |d.journal|
    ensures var p := Stamp(BareEvent(RunPaused), id, |d.journal| + 1);
            var paused := Live(PausedAt(live.run, kind, p), Ended, false, live.jumped);
            var save := Save(paused.run, live.jumped);
            && GoodWrites(d, request, id + 1, [Append(p), save, save])
            && InStep(ApplyAll(d, [Append(p), save, save]), paused, request)
  {
    hide Faithful, DurableOk, JumpOk, GoodWrite;
    var p := Stamp(BareEvent(RunPaused), id, |d.journal| + 1);
    var paused := Live(PausedAt(live.run, kind, p), Ended, false, live.jumped);
    var save := Save(paused.run, live.jumped);
    assert Jumped(d, live) == live.jumped;
    AppendGood(d, live, live.run, p, request, id + 1);
    var d1 := Apply(d, Append(p));
    CoreInStep(d1, Live(Noted(live.run, p), Ended, false, live.jumped), paused, request);
    SaveTwiceGood(d1, paused, request, id + 1);
    GoodCons(d, request, id + 1, Append(p), [save, save]);
    assert [Append(p)] + [save, save] == [Append(p), save, save];
  }
}
