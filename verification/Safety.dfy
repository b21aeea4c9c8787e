/** What holds over every interleaving, with any number of live and stale copies of the run
    and crashes anywhere: CANCELED is final, and the ledger keeps effects at most once. */
module Safety {
  import opened Wrappers
  import opened Content
  import opened Runs
  import opened Recovery
  import opened Ledger
  import opened Machine

  // ------------------------------------------------------------ CANCELED absorbs

  predicate TouchesLedgerOnly(w: Write) {
    w.Create? || w.Put? || w.Resolve? || w.Send?
  }

  lemma {:induction false} LedgerWritesKeepRun(d: Durable, ws: seq<Write>)
    requires forall w :: w in ws ==> TouchesLedgerOnly(w)
    ensures var after := ApplyAll(d, ws);
            after.snap == d.snap && after.journal == d.journal && after.earlier == d.earlier && after.skipped == d.skipped
    decreases |ws|
  {
    if ws != [] {
      assert ws[0] in ws;
      LedgerWritesKeepRun(Apply(d, ws[0]), ws[1..]);
    }
  }

  lemma CanceledActWrites(d: Durable, live: Live, id: nat, runId: string, action: Action)
    requires d.snap.status == Canceled
    ensures forall w :: w in ActSegment(d, live, id, runId, action).writes ==> TouchesLedgerOnly(w)
  {
    hide TouchesLedgerOnly;
    CanceledOpening(d, live, id, action);
    CanceledTool(d, live, id, runId, action);
  }

  lemma CanceledOpening(d: Durable, live: Live, id: nat, action: Action)
    requires d.snap.status == Canceled
    ensures OpeningSegment(d, live, id, action).writes == []
    ensures CallSegment(d, live, id, action).writes == []
    ensures ClosingSegment(d, live, id, action).writes == []
  {
    hide Stamp, Noted, Jumped, Touch, Range;
  }

  lemma CanceledTool(d: Durable, live: Live, id: nat, runId: string, action: Action)
    requires d.snap.status == Canceled
    ensures forall w :: w in ToolSegment(d, live, id, runId, action).writes ==> TouchesLedgerOnly(w)
  {
    hide Stamp, Noted, Jumped, PlanCall;
  }

  lemma CanceledOpWrites(w: World, runId: string, op: Op)
    requires w.d.snap.status == Canceled
    ensures forall x :: x in OpWrites(w, runId, op) ==> TouchesLedgerOnly(x)
  {
    if op.Act? && op.copy < |w.copies| {
      CanceledActWrites(w.d, w.copies[op.copy], w.nextId, runId, op.action);
    }
  }

  lemma CanceledStep(w: World, runId: string, step: Label)
    requires w.d.snap.status == Canceled
    ensures var after := Next(w, runId, step);
            after.d.snap == w.d.snap && after.d.journal == w.d.journal
  {
    CanceledOpWrites(w, runId, step.op);
    LedgerWritesKeepRun(w.d, Surviving(OpWrites(w, runId, step.op), step));
  }

  /** Once CANCELED is stored, no later operation of any copy, control call, failure, shutdown,
      recovery or crash changes the snapshot or appends to the journal. */
  lemma {:induction false} CanceledIsAbsorbing(
      ws: seq<World>, request: Request, runId: string, steps: seq<Label>, j: nat, k: nat)
    requires IsRun(ws, request, runId, steps) && j <= k < |ws|
    requires ws[j].d.snap.status == Canceled
    ensures ws[k].d.snap == ws[j].d.snap && ws[k].d.journal == ws[j].d.journal
    decreases k
  {
    if j < k {
      CanceledIsAbsorbing(ws, request, runId, steps, j, k - 1);
      CanceledStep(ws[k - 1], runId, steps[k - 1]);
    }
  }

  /** A cancel that completes stores CANCELED on every run that has not stopped. */
  lemma CancelStores(w: World, runId: string)
    ensures var d, after := w.d, Next(w, runId, Label(Op.Cancel, None)).d;
            if d.snap.status !in {Canceled, Done, Failed} then
              && after.snap.status == Canceled && after.snap.pause == None
              && after.snap.pendingCalls == [] && after.snap.pendingApprovals == []
              && after.snap.steps == d.snap.steps && after.ledger == d.ledger
              && after.journal == d.journal + [Stamp(StopEvent(CanceledText), w.nextId, |d.journal| + 1)]
            else after == d
  {
    var ws := CancelWrites(w.d, w.nextId);
    if ws != [] {
      assert ws == [ws[0], ws[1]];
      ApplyTwo(w.d, ws[0], ws[1]);
    }
  }

  // --------------------------------------------------------------- ledger invariant

  /** The fields of a row that no later write changes. */
  predicate SameRow(a: Attempt, b: Attempt) {
    a.id == b.id && a.number == b.number && a.round == b.round && a.policy == b.policy && a.key == b.key
  }

  /** The attempt is a row that has left SCHEDULED. */
  ghost predicate Known(ledger: seq<Attempt>, a: Attempt) {
    exists r :: r in ledger && SameRow(r, a) && r.status != Scheduled
  }

  predicate RowOk(a: Attempt, runId: string) {
    && a.round.Some? && a.key == Key(runId, a.round.value, a.id) && a.number >= 1
    && (a.status == Scheduled ==> a.resolution == None) && KeepsResult(a)
  }

  /** A completed attempt keeps what its tool returned. */
  predicate KeepsResult(a: Attempt) {
    a.status == Completed ==> a.result.Some?
  }

  ghost predicate RowsOk(ledger: seq<Attempt>, runId: string) {
    && (forall i, j :: 0 <= i < j < |ledger| && ledger[i].id == ledger[j].id ==> ledger[i].number < ledger[j].number)
    && (forall a :: a in ledger ==> RowOk(a, runId))
  }

  ghost predicate SentOk(d: Durable) {
    && Distinct(d.sent)
    && (forall s :: s in d.sent ==> exists r :: r in d.ledger && SentOf(r) == s && r.status != Scheduled)
  }

  /** A later attempt at the same call of the same round, after one that must not be repeated. */
  predicate Supersedes(later: Attempt, a: Attempt) {
    a.id == later.id && a.round == later.round && a.number < later.number && a.policy == NonReplayable
  }

  ghost predicate RetriesOk(d: Durable) {
    && (forall a :: a in d.ledger && a.resolution == Some(Retry) ==> SentOf(a) in d.retries)
    && (forall a, b :: a in d.ledger && b in d.ledger && Supersedes(b, a) ==> SentOf(a) in d.retries)
  }

  ghost predicate LedgerOk(d: Durable, runId: string) {
    RowsOk(d.ledger, runId) && SentOk(d) && RetriesOk(d)
  }

  /** The writes that keep the ledger sound, each judged where it is applied. */
  ghost predicate WriteOk(d: Durable, runId: string, w: Write) {
    match w
    case Append(_) => true
    case Save(_, _) => true
    case Create(a) =>
      && a.number == NextNumber(d.ledger, a.id) && a.status == Scheduled && a.resolution == None
      && a.round.Some? && a.key == Key(runId, a.round.value, a.id)
      && (forall b :: b in d.ledger && b.id == a.id && b.round == a.round && b.policy == NonReplayable ==>
                        SentOf(b) in d.retries)
    case Put(a) =>
      && (exists r :: r in d.ledger && SameRow(r, a)) && a.status != Scheduled && KeepsResult(a)
      && (a.resolution == Some(Retry) ==> SentOf(a) in d.retries)
    case Resolve(a) => (exists r :: r in d.ledger && SameRow(r, a)) && a.status != Scheduled && KeepsResult(a)
    case Send(s) => s !in d.sent && exists r :: r in d.ledger && SentOf(r) == s && r.status != Scheduled
  }

  ghost predicate WritesOk(d: Durable, runId: string, ws: seq<Write>)
    decreases |ws|
  {
    ws == [] || (WriteOk(d, runId, ws[0]) && WritesOk(Apply(d, ws[0]), runId, ws[1..]))
  }

  lemma CreateKeeps(d: Durable, runId: string, a: Attempt)
    requires LedgerOk(d, runId) && WriteOk(d, runId, Create(a))
    ensures LedgerOk(Apply(d, Create(a)), runId)
    ensures forall x :: Known(d.ledger, x) ==> Known(d.ledger + [a], x)
  {
    hide RowsOk, SentOk, RetriesOk, Known;
    RowCreated(d, runId, a);
    SentCreated(d, a);
    RetriesCreated(d, runId, a);
    forall x | Known(d.ledger, x) ensures Known(d.ledger + [a], x) { StaysKnown(d.ledger, a, x); }
  }

  lemma RowCreated(d: Durable, runId: string, a: Attempt)
    requires RowsOk(d.ledger, runId) && WriteOk(d, runId, Create(a))
    ensures RowsOk(d.ledger + [a], runId)
  {
    var after := d.ledger + [a];
    forall i, j | 0 <= i < j < |after| && after[i].id == after[j].id ensures after[i].number < after[j].number {
      assert after[i] == d.ledger[i] && d.ledger[i] in d.ledger;
    }
  }

  lemma SentCreated(d: Durable, a: Attempt)
    requires SentOk(d)
    ensures SentOk(Apply(d, Create(a)))
  {
    var after := Apply(d, Create(a));
    forall s | s in after.sent ensures exists r :: r in after.ledger && SentOf(r) == s && r.status != Scheduled {
      var r :| r in d.ledger && SentOf(r) == s && r.status != Scheduled;
      assert r in after.ledger;
    }
  }

  lemma RetriesCreated(d: Durable, runId: string, a: Attempt)
    requires RetriesOk(d) && WriteOk(d, runId, Create(a))
    ensures RetriesOk(Apply(d, Create(a)))
  {
  }

  lemma StaysKnown(ledger: seq<Attempt>, a: Attempt, x: Attempt)
    requires Known(ledger, x)
    ensures Known(ledger + [a], x)
  {
    var r :| r in ledger && SameRow(r, x) && r.status != Scheduled;
    assert r in ledger + [a];
  }

  /** A replaced row is either unchanged or the written one, which stands for the same row. */
  lemma PutRows(ledger: seq<Attempt>, runId: string, a: Attempt)
    requires RowsOk(ledger, runId)
    requires exists r :: r in ledger && SameRow(r, a)
    ensures var after := PutAttempt(ledger, a);
            && (forall i :: 0 <= i < |ledger| ==> SameRow(after[i], ledger[i]) && (after[i] == ledger[i] || after[i] == a))
            && (forall x :: x in after ==> x == a || x in ledger)
            && (forall x :: x in ledger ==> exists y :: y in after && SameRow(x, y) && (y == x || y == a))
  {
    var after := PutAttempt(ledger, a);
    var r :| r in ledger && SameRow(r, a);
    var k :| 0 <= k < |ledger| && ledger[k] == r;
    forall i | 0 <= i < |ledger| ensures SameRow(after[i], ledger[i]) && (after[i] == ledger[i] || after[i] == a) {
      if ledger[i].id == a.id && ledger[i].number == a.number {
        assert i == k;
      }
    }
    forall x | x in after ensures x == a || x in ledger {
      var i :| 0 <= i < |after| && after[i] == x;
    }
    forall x | x in ledger ensures exists y :: y in after && SameRow(x, y) && (y == x || y == a) {
      var i :| 0 <= i < |ledger| && ledger[i] == x;
      assert after[i] in after;
    }
  }

  lemma PutKeeps(d: Durable, runId: string, a: Attempt, retries: seq<Sent>)
    requires LedgerOk(d, runId)
    requires (exists r :: r in d.ledger && SameRow(r, a)) && a.status != Scheduled && KeepsResult(a)
    requires a.resolution == Some(Retry) ==> SentOf(a) in retries
    requires forall s :: s in d.retries ==> s in retries
    ensures LedgerOk(d.(ledger := PutAttempt(d.ledger, a), retries := retries), runId)
    ensures forall x :: Known(d.ledger, x) ==> Known(PutAttempt(d.ledger, a), x)
  {
    var ledger := PutAttempt(d.ledger, a);
    var after := d.(ledger := ledger, retries := retries);
    PutRows(d.ledger, runId, a);
    forall x | Known(d.ledger, x) ensures Known(ledger, x) {
      var r :| r in d.ledger && SameRow(r, x) && r.status != Scheduled;
      var y :| y in ledger && SameRow(r, y) && (y == r || y == a);
    }
    assert RowsOk(ledger, runId) by {
      forall x | x in ledger ensures RowOk(x, runId) {
        var i :| 0 <= i < |ledger| && ledger[i] == x;
        assert d.ledger[i] in d.ledger;
      }
    }
    assert SentOk(after) by {
      forall s | s in d.sent ensures exists r :: r in ledger && SentOf(r) == s && r.status != Scheduled {
        var r :| r in d.ledger && SentOf(r) == s && r.status != Scheduled;
        var y :| y in ledger && SameRow(r, y) && (y == r || y == a);
      }
    }
    PutRetries(d, a, retries);
  }

  lemma PutRetries(d: Durable, a: Attempt, retries: seq<Sent>)
    requires RetriesOk(d)
    requires forall i :: 0 <= i < |d.ledger| ==> SameRow(PutAttempt(d.ledger, a)[i], d.ledger[i])
    requires a.resolution == Some(Retry) ==> SentOf(a) in retries
    requires forall s :: s in d.retries ==> s in retries
    ensures RetriesOk(d.(ledger := PutAttempt(d.ledger, a), retries := retries))
  {
    var ledger := PutAttempt(d.ledger, a);
    forall x | x in ledger && x.resolution == Some(Retry) ensures SentOf(x) in retries {
      var i :| 0 <= i < |ledger| && ledger[i] == x;
      assert d.ledger[i] in d.ledger;
    }
    forall x, y | x in ledger && y in ledger && Supersedes(y, x) ensures SentOf(x) in retries {
      var i :| 0 <= i < |ledger| && ledger[i] == x;
      var j :| 0 <= j < |ledger| && ledger[j] == y;
      var x', y' := d.ledger[i], d.ledger[j];
      assert x' in d.ledger && y' in d.ledger;
      assert SameRow(x, x') && SameRow(y, y');
      assert Supersedes(y', x') && SentOf(x') == SentOf(x);
    }
  }

  lemma WriteKeeps(d: Durable, runId: string, w: Write)
    requires LedgerOk(d, runId) && WriteOk(d, runId, w)
    ensures LedgerOk(Apply(d, w), runId)
    ensures forall x :: Known(d.ledger, x) ==> Known(Apply(d, w).ledger, x)
  {
    match w
    case Append(_) =>
    case Save(_, _) =>
    case Create(a) => CreateKeeps(d, runId, a);
    case Put(a) => PutKeeps(d, runId, a, d.retries);
    case Resolve(a) => PutKeeps(d, runId, a, Apply(d, w).retries);
    case Send(s) =>
      var sent := d.sent + [s];
      assert Distinct(sent) by {
        forall i, j | 0 <= i < j < |sent| ensures sent[i] != sent[j] {
          assert sent[i] == d.sent[i];
        }
      }
  }

  /** Every prefix of sound writes is sound: a crash cannot break the ledger. */
  lemma {:induction false} WritesKeep(d: Durable, runId: string, ws: seq<Write>, k: nat)
    requires k <= |ws|
    requires LedgerOk(d, runId) && WritesOk(d, runId, ws)
    ensures LedgerOk(ApplyAll(d, ws[..k]), runId)
    ensures forall x :: Known(d.ledger, x) ==> Known(ApplyAll(d, ws[..k]).ledger, x)
    decreases |ws|
  {
    if k > 0 {
      WriteKeeps(d, runId, ws[0]);
      WritesKeep(Apply(d, ws[0]), runId, ws[1..], k - 1);
      assert ws[..k][1..] == ws[1..][..k - 1];
    }
  }

  // ------------------------------------------------------- every operation is sound

  predicate IsRunWrite(w: Write) {
    w.Append? || w.Save?
  }

  lemma {:induction false} RunWritesOk(d: Durable, runId: string, ws: seq<Write>)
    requires forall w :: w in ws ==> IsRunWrite(w)
    ensures WritesOk(d, runId, ws)
    decreases |ws|
  {
    if ws != [] {
      assert ws[0] in ws;
      RunWritesOk(Apply(d, ws[0]), runId, ws[1..]);
    }
  }

  /** A copy inside a tool knows the row of its attempt. */
  ghost predicate CopyOk(ledger: seq<Attempt>, live: Live) {
    live.pc.InTool? && live.pc.attempt.Some? ==>
      Known(ledger, live.pc.attempt.value) && live.pc.attempt.value.resolution == None
  }

  lemma DispatchOk(d: Durable, runId: string, round: nat, call: string, tool: Option<ReplayPolicy>)
    requires LedgerOk(d, runId)
    requires PlanCall(d.ledger, runId, round, call, tool).DispatchNew?
    ensures var a := PlanCall(d.ledger, runId, round, call, tool).attempt;
            var started := a.(status := Started);
            var ws := [Create(a), Put(started), Send(SentOf(a))];
            && WritesOk(d, runId, ws)
            && Known(ApplyAll(d, ws).ledger, started)
  {
    var a := PlanCall(d.ledger, runId, round, call, tool).attempt;
    var started := a.(status := Started);
    NewRowOk(d, runId, round, call, tool);
    CreateKeeps(d, runId, a);
    var d1 := Apply(d, Create(a));
    assert SentOf(a) !in d1.sent by {
      if SentOf(a) in d.sent { assert false; }
    }
    assert d1.ledger[|d.ledger|] == a;
    StartOk(d1, runId, a);
    var ws := [Create(a), Put(started), Send(SentOf(a))];
    assert ws[1..] == [Put(started), Send(SentOf(a))];
  }

  lemma NewRowOk(d: Durable, runId: string, round: nat, call: string, tool: Option<ReplayPolicy>)
    requires LedgerOk(d, runId)
    requires PlanCall(d.ledger, runId, round, call, tool).DispatchNew?
    ensures WriteOk(d, runId, Create(PlanCall(d.ledger, runId, round, call, tool).attempt))
  {
    var latest := Latest(d.ledger, round, call);
    if latest.Some? { assert RowOk(latest.value, runId); }
    forall b | b in d.ledger && b.id == call && b.round == Some(round) && b.policy == NonReplayable
      ensures SentOf(b) in d.retries
    {
      OldRowRetried(d, runId, round, call, b);
    }
  }

  /** When a call may be dispatched again, every earlier attempt at it was retried or replayable. */
  lemma OldRowRetried(d: Durable, runId: string, round: nat, call: string, b: Attempt)
    requires LedgerOk(d, runId)
    requires b in d.ledger && b.id == call && b.round == Some(round) && b.policy == NonReplayable
    requires var latest := Latest(d.ledger, round, call).value;
             latest.status in {Started, Unknown} && CanRerun(Some(latest))
    ensures SentOf(b) in d.retries
  {
    var latest := Latest(d.ledger, round, call).value;
    if b.number == latest.number { SameNumberSameRow(d.ledger, runId, b, latest); }
    else { assert Supersedes(latest, b); }
  }

  /** STARTED is saved before the call is sent, and the call was never sent before. */
  lemma StartOk(d: Durable, runId: string, a: Attempt)
    requires LedgerOk(d, runId) && a in d.ledger && a.resolution == None && SentOf(a) !in d.sent
    ensures var started := a.(status := Started);
            var ws := [Put(started), Send(SentOf(a))];
            WritesOk(d, runId, ws) && Known(ApplyAll(d, ws).ledger, started)
  {
    var started := a.(status := Started);
    assert SameRow(a, started);
    var d1 := Apply(d, Put(started));
    var i :| 0 <= i < |d.ledger| && d.ledger[i] == a;
    assert d1.ledger[i] == started;
    assert SentOf(started) == SentOf(a) && WriteOk(d1, runId, Send(SentOf(a)));
    var ws := [Put(started), Send(SentOf(a))];
    assert ws[1..] == [Send(SentOf(a))];
    assert [Send(SentOf(a))][1..] == [];
    assert WritesOk(d1, runId, ws[1..]);
    ApplyTwo(d, Put(started), Send(SentOf(a)));
  }

  lemma SameNumberSameRow(ledger: seq<Attempt>, runId: string, a: Attempt, b: Attempt)
    requires RowsOk(ledger, runId) && a in ledger && b in ledger && a.id == b.id && a.number == b.number
    ensures a == b
  {
    var i :| 0 <= i < |ledger| && ledger[i] == a;
    var j :| 0 <= j < |ledger| && ledger[j] == b;
  }

  /** A row still SCHEDULED was never handed to its tool. */
  lemma ScheduledNotSent(d: Durable, runId: string, a: Attempt)
    requires LedgerOk(d, runId) && a in d.ledger && a.status == Scheduled
    ensures SentOf(a) !in d.sent
  {
    forall r | r in d.ledger && SentOf(r) == SentOf(a) ensures r == a {
      SameNumberSameRow(d.ledger, runId, r, a);
    }
  }

  lemma RedispatchOk(d: Durable, runId: string, round: nat, call: string, tool: Option<ReplayPolicy>)
    requires LedgerOk(d, runId)
    requires PlanCall(d.ledger, runId, round, call, tool).DispatchScheduled?
    ensures var a := PlanCall(d.ledger, runId, round, call, tool).attempt;
            var started := a.(status := Started);
            var ws := [Put(started), Send(SentOf(a))];
            && WritesOk(d, runId, ws)
            && Known(ApplyAll(d, ws).ledger, started)
            && started.resolution == None
  {
    var a := PlanCall(d.ledger, runId, round, call, tool).attempt;
    ScheduledNotSent(d, runId, a);
    StartOk(d, runId, a);
  }

  lemma {:induction false} WritesOkConcat(d: Durable, runId: string, first: seq<Write>, second: seq<Write>)
    requires WritesOk(d, runId, first) && WritesOk(ApplyAll(d, first), runId, second)
    ensures WritesOk(d, runId, first + second)
    decreases |first|
  {
    if first == [] {
      assert first + second == second;
    } else {
      WritesOkConcat(Apply(d, first[0]), runId, first[1..], second);
      assert (first + second)[1..] == first[1..] + second;
    }
  }

  /** A put of a known row that leaves SCHEDULED and claims no unlogged RETRY. */
  ghost predicate SafePut(d: Durable, w: Write) {
    w.Put? && w.attempt.status != Scheduled && KeepsResult(w.attempt)
    && (exists r :: r in d.ledger && SameRow(r, w.attempt))
    && (w.attempt.resolution == Some(Retry) ==> SentOf(w.attempt) in d.retries)
  }

  lemma {:induction false} PutsOk(d: Durable, runId: string, ws: seq<Write>)
    requires LedgerOk(d, runId)
    requires forall w :: w in ws ==> SafePut(d, w)
    ensures WritesOk(d, runId, ws)
    decreases |ws|
  {
    if ws != [] {
      var w := ws[0];
      assert w in ws;
      WriteKeeps(d, runId, w);
      PutRows(d.ledger, runId, w.attempt);
      var after := Apply(d, w);
      forall x | x in ws[1..] ensures SafePut(after, x) {
        assert x in ws;
        var r :| r in d.ledger && SameRow(r, x.attempt);
        var y :| y in after.ledger && SameRow(r, y);
        assert SameRow(y, x.attempt);
      }
      PutsOk(after, runId, ws[1..]);
    }
  }

  lemma {:induction false} UnknownPutsSafe(d: Durable, rows: seq<Attempt>)
    requires RetriesOk(d) && forall r :: r in rows ==> r in d.ledger
    ensures forall w :: w in UnknownPuts(rows) ==> SafePut(d, w)
    decreases |rows|
  {
    if rows != [] {
      assert rows[0] in rows;
      UnknownPutsSafe(d, rows[1..]);
      assert SameRow(rows[0], rows[0].(status := Unknown)) && SentOf(rows[0]) == SentOf(rows[0].(status := Unknown));
    }
  }

  lemma {:induction false} AbandonPutsSafe(d: Durable, rows: seq<Attempt>)
    requires forall r :: r in rows ==> r in d.ledger
    ensures forall w :: w in AbandonPuts(d.ledger, rows) ==> SafePut(d, w)
    decreases |rows|
  {
    if rows != [] {
      assert rows[0] in rows;
      AbandonPutsSafe(d, rows[1..]);
      assert SameRow(rows[0], rows[0].(resolution := Some(AbandonAndRetryRun)));
    }
  }

  ghost predicate SegmentOk(d: Durable, runId: string, seg: Segment) {
    WritesOk(d, runId, seg.writes)
    && (seg.next.Some? ==> CopyOk(ApplyAll(d, seg.writes).ledger, seg.next.value))
  }

  lemma CloseOk(d: Durable, runId: string, attempt: Option<Attempt>, outcome: Outcome, rest: Segment)
    requires LedgerOk(d, runId)
    requires attempt.Some? ==> Known(d.ledger, attempt.value) && attempt.value.resolution == None
    requires forall w :: w in rest.writes ==> IsRunWrite(w)
    requires rest.next.Some? ==> !rest.next.value.pc.InTool?
    ensures SegmentOk(d, runId, Close(attempt, outcome, rest))
  {
    if attempt.Some? {
      var done := Concluded(attempt.value, outcome);
      var r :| r in d.ledger && SameRow(r, attempt.value) && r.status != Scheduled;
      assert SameRow(r, done);
      assert SafePut(d, Put(done));
      PutsOk(d, runId, [Put(done)]);
      RunWritesOk(ApplyAll(d, [Put(done)]), runId, rest.writes);
      WritesOkConcat(d, runId, [Put(done)], rest.writes);
    } else {
      RunWritesOk(d, runId, rest.writes);
    }
  }

  lemma RecordRunWrites(d: Durable, live: Live, e: Event, id: nat, rest: seq<ToolCall>, left: int)
    requires ProgressOf(e).Some?
    ensures var seg := RecordTool(d, live, e, id, rest, left);
            && (forall w :: w in seg.writes ==> IsRunWrite(w))
            && (seg.next.Some? ==> !seg.next.value.pc.InTool?)
  {
  }

  lemma ExecuteOk(d: Durable, live: Live, id: nat, runId: string, tool: Option<ReplayPolicy>)
    requires LedgerOk(d, runId) && live.pc.Executing?
    ensures SegmentOk(d, runId, ExecuteSegment(d, live, id, runId, tool))
  {
    hide LedgerOk, RecordTool, FailWrites, Known;
    var Executing(call, rest, left) := live.pc;
    var run := live.run;
    var seg := ExecuteSegment(d, live, id, runId, tool);
    if call.name.Some? {
      var plan := PlanCall(d.ledger, runId, Round(run.steps), call.id, tool);
      if plan.DispatchNew? {
        DispatchOk(d, runId, Round(run.steps), call.id, tool);
        SentSegmentOk(d, runId, live, plan.attempt.(status := Started), seg);
      } else if plan.DispatchScheduled? {
        RedispatchOk(d, runId, Round(run.steps), call.id, tool);
        SentSegmentOk(d, runId, live, plan.attempt.(status := Started), seg);
      } else {
        ExecutePlain(d, live, id, runId, tool);
        RunWritesOk(d, runId, seg.writes);
      }
    }
  }

  lemma SentSegmentOk(d: Durable, runId: string, live: Live, started: Attempt, seg: Segment)
    requires live.pc.Executing?
    requires seg.next == Some(Live(live.run, InTool(live.pc.call, live.pc.rest, live.pc.left, Some(started)), false, live.jumped))
    requires WritesOk(d, runId, seg.writes)
    requires Known(ApplyAll(d, seg.writes).ledger, started) && started.resolution == None
    ensures SegmentOk(d, runId, seg)
  {
  }

  lemma ExecutePlain(d: Durable, live: Live, id: nat, runId: string, tool: Option<ReplayPolicy>)
    requires live.pc.Executing? && live.pc.call.name.Some?
    requires var plan := PlanCall(d.ledger, runId, Round(live.run.steps), live.pc.call.id, tool);
             !plan.DispatchNew? && !plan.DispatchScheduled?
    ensures var seg := ExecuteSegment(d, live, id, runId, tool);
            && (forall w :: w in seg.writes ==> IsRunWrite(w))
            && (seg.next.Some? ==> !seg.next.value.pc.InTool?)
  {
    var Executing(call, rest, left) := live.pc;
    match PlanCall(d.ledger, runId, Round(live.run.steps), call.id, tool)
    case Serve(result) => RecordRunWrites(d, live, ResultEvent(call, result), id, rest, left);
    case ServeError(error) => RecordRunWrites(d, live, ErrorEvent(call, error), id, rest, left);
    case ToolMissing => RecordRunWrites(d, live, ErrorEvent(call, "tool not found"), id, rest, left);
    case _ =>
  }

  /** Apart from tool calls, an execution writes only the journal and the snapshot. */
  ghost predicate Plain(live: Live, seg: Segment) {
    && (forall w :: w in seg.writes ==> IsRunWrite(w))
    && (seg.next.Some? ==> !seg.next.value.pc.InTool? || seg == Segment([], Some(live)))
  }

  lemma PlainOk(d: Durable, live: Live, runId: string, seg: Segment)
    requires CopyOk(d.ledger, live) && Plain(live, seg)
    ensures SegmentOk(d, runId, seg)
  {
    RunWritesOk(d, runId, seg.writes);
  }

  lemma OpeningPlain(d: Durable, live: Live, id: nat, action: Action)
    ensures Plain(live, OpeningSegment(d, live, id, action))
  {
  }

  lemma CallPlain(d: Durable, live: Live, id: nat, action: Action)
    ensures Plain(live, CallSegment(d, live, id, action))
  {
    hide Touch, Stamp, Noted, Jumped;
  }

  lemma ClosingPlain(d: Durable, live: Live, id: nat, action: Action)
    ensures Plain(live, ClosingSegment(d, live, id, action))
  {
  }

  lemma ToolOk(d: Durable, live: Live, id: nat, runId: string, action: Action)
    requires LedgerOk(d, runId) && CopyOk(d.ledger, live)
    ensures SegmentOk(d, runId, ToolSegment(d, live, id, runId, action))
  {
    if live.pc.Executing? && action.Execute? {
      ExecuteOk(d, live, id, runId, action.tool);
    } else if live.pc.InTool? && action.ToolReturns? {
      var e := ResultEvent(live.pc.call, action.result);
      RecordRunWrites(d, live, e, id, live.pc.rest, live.pc.left);
      CloseOk(d, runId, live.pc.attempt, Returned(action.result), RecordTool(d, live, e, id, live.pc.rest, live.pc.left));
    } else if live.pc.InTool? && action.ToolRaises? {
      var e := ErrorEvent(live.pc.call, action.error);
      RecordRunWrites(d, live, e, id, live.pc.rest, live.pc.left);
      CloseOk(d, runId, live.pc.attempt, Raised(action.error), RecordTool(d, live, e, id, live.pc.rest, live.pc.left));
    } else {
      PlainOk(d, live, runId, ToolSegment(d, live, id, runId, action));
    }
  }

  lemma ActOk(d: Durable, live: Live, id: nat, runId: string, action: Action)
    requires LedgerOk(d, runId) && CopyOk(d.ledger, live)
    ensures SegmentOk(d, runId, ActSegment(d, live, id, runId, action))
  {
    OpeningPlain(d, live, id, action);
    PlainOk(d, live, runId, OpeningSegment(d, live, id, action));
    CallPlain(d, live, id, action);
    PlainOk(d, live, runId, CallSegment(d, live, id, action));
    ToolOk(d, live, id, runId, action);
    ClosingPlain(d, live, id, action);
    PlainOk(d, live, runId, ClosingSegment(d, live, id, action));
  }

  lemma ResolveOk(d: Durable, runId: string, id: nat, call: string, number: nat, confirmed: Option<string>)
    requires LedgerOk(d, runId)
    ensures WritesOk(d, runId, ResolveWrites(d, id, call, number, confirmed))
  {
    hide RowsOk, SentOk, RetriesOk, AllResolved, Noted, Stamp, PutAttempt, Passed;
    var ws := ResolveWrites(d, id, call, number, confirmed);
    if ws != [] {
      var found := FindAttempt(d.ledger, call, number).value;
      var a := ResolvedAttempt(found, confirmed);
      assert SameRow(found, a);
      RunWritesOk(Apply(d, Resolve(a)), runId, ws[1..]);
    }
  }

  lemma AbandonOk(d: Durable, runId: string, id: nat)
    requires LedgerOk(d, runId)
    ensures WritesOk(d, runId, AbandonWrites(d, id))
  {
    hide RowsOk, SentOk, CanResume, Passed, Stamp, Noted;
    var puts, ws := AbandonPuts(d.ledger, d.ledger), AbandonWrites(d, id);
    AbandonPutsSafe(d, d.ledger);
    PutsOk(d, runId, puts);
    if ws != [] {
      var rest := ws[|puts|..];
      RunWritesOk(ApplyAll(d, puts), runId, rest);
      WritesOkConcat(d, runId, puts, rest);
      assert ws == puts + rest;
    }
  }

  lemma SuspendOk(d: Durable, runId: string, id: nat, cause: PauseCause)
    requires LedgerOk(d, runId)
    ensures WritesOk(d, runId, SuspendWrites(d, id, cause))
  {
    hide RowsOk, SentOk, Inspect, Stamp, Noted, Range;
    var puts, ws := UnknownPuts(d.ledger), SuspendWrites(d, id, cause);
    UnknownPutsSafe(d, d.ledger);
    PutsOk(d, runId, puts);
    if d.snap.status == Running {
      var rest := ws[|puts|..];
      assert ws[..|puts|] == puts && forall x :: x in rest ==> IsRunWrite(x);
      RunWritesOk(ApplyAll(d, puts), runId, rest);
      WritesOkConcat(d, runId, puts, rest);
      assert ws == puts + rest;
    }
  }

  lemma OpOk(w: World, runId: string, op: Op)
    requires LedgerOk(w.d, runId) && forall i :: 0 <= i < |w.copies| ==> CopyOk(w.d.ledger, w.copies[i])
    ensures WritesOk(w.d, runId, OpWrites(w, runId, op))
  {
    hide LedgerOk, CopyOk, ActSegment, ResolveWrites, AbandonWrites, SuspendWrites, WritesOk;
    match op
    case ResolveExecution(call, number, confirmed) => ResolveOk(w.d, runId, w.nextId, call, number, confirmed);
    case Abandon => AbandonOk(w.d, runId, w.nextId);
    case Suspend(cause, _) => SuspendOk(w.d, runId, w.nextId, cause);
    case Act(i, action) =>
      if i < |w.copies| { ActOk(w.d, w.copies[i], w.nextId, runId, action); } else { RunWritesOk(w.d, runId, []); }
    case _ => RunWritesOk(w.d, runId, OpWrites(w, runId, op));
  }

  ghost predicate WorldOk(w: World, runId: string) {
    LedgerOk(w.d, runId) && forall i :: 0 <= i < |w.copies| ==> CopyOk(w.d.ledger, w.copies[i])
  }

  lemma SurvivingIsPrefix(ws: seq<Write>, step: Label)
    ensures exists k :: 0 <= k <= |ws| && Surviving(ws, step) == ws[..k]
    ensures step.cut == None ==> Surviving(ws, step) == ws
  {
    var k := if step.cut == None then |ws|
             else if step.op.Suspend? && step.op.transactional then 0
             else if step.cut.value < |ws| then step.cut.value else |ws|;
    assert Surviving(ws, step) == ws[..k];
  }

  lemma StepKeeps(w: World, runId: string, step: Label)
    requires WorldOk(w, runId)
    ensures WorldOk(Next(w, runId, step), runId)
  {
    var ws := OpWrites(w, runId, step.op);
    OpOk(w, runId, step.op);
    SurvivingIsPrefix(ws, step);
    var k :| 0 <= k <= |ws| && Surviving(ws, step) == ws[..k];
    WritesKeep(w.d, runId, ws, k);
    var after := Next(w, runId, step);
    if step.cut == None {
      if step.op.Act? && step.op.copy < |w.copies| {
        ActOk(w.d, w.copies[step.op.copy], w.nextId, runId, step.op.action);
      }
      forall i | 0 <= i < |after.copies| ensures CopyOk(after.d.ledger, after.copies[i]) {
        var copy := after.copies[i];
        assert copy in w.copies || !copy.pc.InTool? || step.op.Act?;
      }
    }
  }

  lemma {:induction false} RunsAreOk(ws: seq<World>, request: Request, runId: string, steps: seq<Label>, k: nat)
    requires IsRun(ws, request, runId, steps) && k < |ws|
    ensures WorldOk(ws[k], runId)
    decreases k
  {
    hide WorldOk, Next;
    if k > 0 {
      RunsAreOk(ws, request, runId, steps, k - 1);
      StepKeeps(ws[k - 1], runId, steps[k - 1]);
    } else {
      StartIsOk(request, runId);
    }
  }

  lemma StartIsOk(request: Request, runId: string)
    ensures WorldOk(StartWorld(request), runId)
  {
  }

  // ----------------------------------------------------------------- main results

  function Of(calls: seq<Sent>, round: nat, id: string): seq<Sent> {
    if calls == [] then []
    else
      var before := Of(calls[..|calls| - 1], round, id);
      var last := calls[|calls| - 1];
      if last.round == round && last.id == id then before + [last] else before
  }

  lemma {:induction false} OfIs(calls: seq<Sent>, round: nat, id: string)
    ensures forall s :: s in Of(calls, round, id) <==> s in calls && s.round == round && s.id == id
    ensures Distinct(calls) ==> Distinct(Of(calls, round, id))
    decreases |calls|
  {
    if calls != [] {
      var front, last := calls[..|calls| - 1], calls[|calls| - 1];
      OfIs(front, round, id);
      assert forall s :: s in calls <==> s in front || s == last;
      if Distinct(calls) {
        var before := Of(front, round, id);
        assert last !in front;
        forall i | 0 <= i < |before| ensures before[i] != last { assert before[i] in before; }
      }
    }
  }

  lemma {:induction false} DistinctSize<T>(s: seq<T>, bound: set<T>)
    requires Distinct(s) && forall x :: x in s ==> x in bound
    ensures |s| <= |bound|
    decreases |s|
  {
    if s != [] {
      var front, last := s[..|s| - 1], s[|s| - 1];
      forall x | x in front ensures x in bound - {last} {
        var i :| 0 <= i < |front| && front[i] == x;
        assert s[i] == x;
      }
      DistinctSize(front, bound - {last});
    }
  }

  lemma {:induction false} SetOfSeqSize<T>(s: seq<T>)
    ensures |set x | x in s| <= |s|
    decreases |s|
  {
    if s != [] {
      SetOfSeqSize(s[1..]);
      assert (set x | x in s) == {s[0]} + (set x | x in s[1..]);
    }
  }

  /** No attempt is handed to its tool twice. */
  lemma AttemptsDispatchedOnce(ws: seq<World>, request: Request, runId: string, steps: seq<Label>, k: nat)
    requires IsRun(ws, request, runId, steps) && k < |ws|
    ensures Distinct(ws[k].d.sent)
  {
    RunsAreOk(ws, request, runId, steps, k);
  }

  /** A call of one round whose attempts are all recorded NON_REPLAYABLE is handed to its tool
      at most once more than the operator asked for a RETRY of it. */
  lemma AtMostOnceEffects(ws: seq<World>, request: Request, runId: string, steps: seq<Label>, k: nat, round: nat, id: string)
    requires IsRun(ws, request, runId, steps) && k < |ws|
    requires forall a :: a in ws[k].d.ledger && a.round == Some(round) && a.id == id ==> a.policy == NonReplayable
    ensures |Of(ws[k].d.sent, round, id)| <= 1 + |Of(ws[k].d.retries, round, id)|
  {
    RunsAreOk(ws, request, runId, steps, k);
    DispatchBound(ws[k].d, runId, round, id);
  }

  lemma DispatchBound(d: Durable, runId: string, round: nat, id: string)
    requires LedgerOk(d, runId)
    requires forall a :: a in d.ledger && a.round == Some(round) && a.id == id ==> a.policy == NonReplayable
    ensures |Of(d.sent, round, id)| <= 1 + |Of(d.retries, round, id)|
  {
    var sent, retries := Of(d.sent, round, id), Of(d.retries, round, id);
    OfIs(d.sent, round, id);
    OfIs(d.retries, round, id);
    var allowed := set s | s in retries;
    SetOfSeqSize(retries);
    if sent != [] {
      var latest := Latest(d.ledger, round, id);
      assert sent[0] in sent;
      SentIsRetriedOrLatest(d, runId, sent[0], round, id);
      forall s | s in sent ensures s in allowed + {SentOf(latest.value)} {
        SentIsRetriedOrLatest(d, runId, s, round, id);
      }
      DistinctSize(sent, allowed + {SentOf(latest.value)});
    }
  }

  lemma SentIsRetriedOrLatest(d: Durable, runId: string, s: Sent, round: nat, id: string)
    requires LedgerOk(d, runId) && s in d.sent && s.round == round && s.id == id
    requires forall a :: a in d.ledger && a.round == Some(round) && a.id == id ==> a.policy == NonReplayable
    ensures var latest := Latest(d.ledger, round, id);
            latest.Some? && (s in d.retries || s == SentOf(latest.value))
  {
    var r :| r in d.ledger && SentOf(r) == s && r.status != Scheduled;
    assert RowOk(r, runId);
    var latest := Latest(d.ledger, round, id).value;
    if r.number < latest.number { assert Supersedes(latest, r); }
  }

  /** Two attempts of a run share an idempotency key exactly when they are attempts at the same
      call of the same round; and the attempts at one call id are numbered upwards in the order
      they were created, over all rounds. */
  lemma LedgerIdentity(ws: seq<World>, request: Request, runId: string, steps: seq<Label>, k: nat, i: nat, j: nat)
    requires IsRun(ws, request, runId, steps) && k < |ws|
    requires i < j < |ws[k].d.ledger|
    ensures var ledger := ws[k].d.ledger;
            && (ledger[i].key == ledger[j].key <==> ledger[i].round == ledger[j].round && ledger[i].id == ledger[j].id)
            && (ledger[i].id == ledger[j].id ==> ledger[i].number < ledger[j].number)
            && ledger[j].round.Some?
            && (ledger[i].id == ledger[j].id && ledger[i].round == ledger[j].round ==>
                  Latest(ledger, ledger[j].round.value, ledger[j].id) != Some(ledger[i]))
  {
    RunsAreOk(ws, request, runId, steps, k);
    var ledger := ws[k].d.ledger;
    var a, b := ledger[i], ledger[j];
    assert a in ledger && b in ledger;
    KeyInjective(runId, a.round.value, a.id, b.round.value, b.id);
  }
}
