/** The write-ahead ledger of tool attempts (agent_recovery.py, agent_execution.py). */
module Ledger {
  import opened Wrappers
  import opened Content
  import opened Runs

  /** The entry of _latest_tool_execution_attempts for one call of one round. */
  function Latest(ledger: seq<Attempt>, round: nat, id: string): (latest: Option<Attempt>)
    ensures latest.Some? ==> latest.value in ledger && latest.value.round == Some(round) && latest.value.id == id
    ensures forall a :: a in ledger && a.round == Some(round) && a.id == id ==>
                          latest.Some? && a.number <= latest.value.number
  {
    if ledger == [] then None
    else
      var before := Latest(ledger[..|ledger| - 1], round, id);
      var a := ledger[|ledger| - 1];
      if a.round == Some(round) && a.id == id && (before == None || a.number > before.value.number)
      then Some(a) else before
  }

  /** The latest attempt of a call id over all rounds, as operator resolution looks at it. */
  function LatestOfRun(ledger: seq<Attempt>, id: string): (latest: Option<Attempt>)
    ensures latest.Some? ==> latest.value in ledger && latest.value.id == id
    ensures forall a :: a in ledger && a.id == id ==> latest.Some? && a.number <= latest.value.number
  {
    if ledger == [] then None
    else
      var before := LatestOfRun(ledger[..|ledger| - 1], id);
      var a := ledger[|ledger| - 1];
      if a.id == id && (before == None || a.number > before.value.number) then Some(a) else before
  }

  predicate HasUnscoped(ledger: seq<Attempt>, id: string) {
    exists a :: a in ledger && a.round == None && a.id == id
  }

  function GreatestNumber(ledger: seq<Attempt>, id: string): (n: nat)
    ensures forall a :: a in ledger && a.id == id ==> a.number <= n
    ensures n == 0 || exists a :: a in ledger && a.id == id && a.number == n
  {
    if ledger == [] then 0
    else
      var before := GreatestNumber(ledger[..|ledger| - 1], id);
      var a := ledger[|ledger| - 1];
      if a.id == id && a.number > before then a.number else before
  }

  /** _next_tool_execution_attempt: numbers keep rising across rounds that reuse a call id. */
  function NextNumber(ledger: seq<Attempt>, id: string): nat {
    GreatestNumber(ledger, id) + 1
  }

  /** _tool_call_can_resume. */
  predicate CanRerun(latest: Option<Attempt>) {
    latest == None
    || latest.value.status == Scheduled
    || latest.value.status == Completed || latest.value.status == AttemptFailed
    || latest.value.resolution == Some(Retry)
    || latest.value.policy == Safe || latest.value.policy == Idempotent
  }

  datatype LedgerError = LegacyAttempt | MissingResult | UnknownOutcome

  /** What _execute_tool_call decides before it runs a named tool. */
  datatype Plan =
    | Serve(result: ToolResult)
    | ServeError(error: string)
    | Refuse(reason: LedgerError)
    | ToolMissing
    | DispatchNew(attempt: Attempt)
    | DispatchScheduled(attempt: Attempt)

  function Digits(n: nat): (s: string)
    ensures s != [] && forall c :: c in s ==> '0' <= c <= '9'
  {
    if n < 10 then ['0' + n as char] else Digits(n / 10) + ['0' + (n % 10) as char]
  }

  /** The idempotency key: run, round and call id, separated by colons. */
  function Key(runId: string, round: nat, id: string): string {
    runId + ":" + Digits(round) + ":" + id
  }

  function PlanCall(ledger: seq<Attempt>, runId: string, round: nat, id: string, tool: Option<ReplayPolicy>): Plan {
    var latest := Latest(ledger, round, id);
    if HasUnscoped(ledger, id) then Refuse(LegacyAttempt)
    else if latest.Some? && latest.value.status == Completed then
      if latest.value.result == None then Refuse(MissingResult) else Serve(latest.value.result.value)
    else if latest.Some? && latest.value.status == AttemptFailed then
      ServeError(if latest.value.error.Some? then latest.value.error.value else "Persisted tool execution failed")
    else if latest.Some? && latest.value.status in {Started, Unknown} && !CanRerun(latest) then Refuse(UnknownOutcome)
    else if tool == None then ToolMissing
    else if latest.Some? && latest.value.status == Scheduled then DispatchScheduled(latest.value)
    else
      var key := if latest.Some? then latest.value.key else Key(runId, round, id);
      DispatchNew(Attempt(id, NextNumber(ledger, id), Some(round), Scheduled, tool.value, key, None, None, None))
  }

  /** save_attempt: the row with this call id and number is replaced. */
  function PutAttempt(ledger: seq<Attempt>, a: Attempt): (after: seq<Attempt>)
    ensures |after| == |ledger|
    ensures forall i :: 0 <= i < |ledger| ==>
                          after[i] == if ledger[i].id == a.id && ledger[i].number == a.number then a else ledger[i]
  {
    seq(|ledger|, i requires 0 <= i < |ledger| =>
      if ledger[i].id == a.id && ledger[i].number == a.number then a else ledger[i])
  }

  // ------------------------------------------------- classifier and executor

  datatype Outcome = Returned(result: ToolResult) | Raised(error: string)

  function Concluded(a: Attempt, outcome: Outcome): Attempt {
    match outcome
    case Returned(result) => a.(status := Completed, result := Some(result))
    case Raised(error) => a.(status := AttemptFailed, error := Some(error))
  }

  /** The ledger after one call has been executed to its end. */
  function Executed(ledger: seq<Attempt>, runId: string, round: nat, call: ToolCall,
                    tool: Option<ReplayPolicy>, outcome: Outcome): seq<Attempt>
  {
    if call.name == None then ledger
    else match PlanCall(ledger, runId, round, call.id, tool)
      case DispatchNew(a) => PutAttempt(ledger + [a], Concluded(a.(status := Started), outcome))
      case DispatchScheduled(a) => PutAttempt(ledger, Concluded(a.(status := Started), outcome))
      case _ => ledger
  }

  /** Whether executing the calls in order raises the unknown-outcome or the legacy error,
      tool errors being recovered. */
  predicate Blocks(ledger: seq<Attempt>, runId: string, round: nat, calls: seq<ToolCall>,
                   tools: seq<Option<ReplayPolicy>>, outcomes: seq<Outcome>)
    requires |tools| == |outcomes| == |calls|
    decreases |calls|
  {
    calls != [] &&
    ((calls[0].name.Some? &&
      PlanCall(ledger, runId, round, calls[0].id, tools[0]) in {Refuse(LegacyAttempt), Refuse(UnknownOutcome)})
     || Blocks(Executed(ledger, runId, round, calls[0], tools[0], outcomes[0]),
               runId, round, calls[1..], tools[1..], outcomes[1..]))
  }

  predicate Resumable(ledger: seq<Attempt>, round: nat, id: string) {
    !HasUnscoped(ledger, id) && CanRerun(Latest(ledger, round, id))
  }

  /** The tool_replay_ready test of inspect_agent_run_checkpoint. */
  predicate ReplayReady(ledger: seq<Attempt>, round: nat, calls: seq<ToolCall>) {
    forall c :: c in calls ==> Resumable(ledger, round, c.id)
  }

  /** A call id and number name one row (the primary key of the table). */
  ghost predicate UniqueRows(ledger: seq<Attempt>) {
    forall i, j :: 0 <= i < j < |ledger| ==> ledger[i].id != ledger[j].id || ledger[i].number != ledger[j].number
  }

  ghost predicate ResultsKept(ledger: seq<Attempt>) {
    forall a :: a in ledger && a.status == Completed ==> a.result.Some?
  }

  /** Two ledgers hold the same rows of one call id. */
  ghost predicate SameRows(a: seq<Attempt>, b: seq<Attempt>, id: string) {
    && (forall x :: x in a && x.id == id ==> x in b)
    && (forall x :: x in b && x.id == id ==> x in a)
  }

  lemma LatestOfSameRows(a: seq<Attempt>, b: seq<Attempt>, round: nat, id: string)
    requires SameRows(a, b, id) && UniqueRows(a) && UniqueRows(b)
    ensures Latest(a, round, id) == Latest(b, round, id)
    ensures HasUnscoped(a, id) == HasUnscoped(b, id)
  {
    var x, y := Latest(a, round, id), Latest(b, round, id);
    if x.Some? {
      assert x.value in b;
      assert y.value in a;
      var i :| 0 <= i < |a| && a[i] == x.value;
      var j :| 0 <= j < |a| && a[j] == y.value;
    }
  }

  /** Executing one call leaves the rows of every other call id as they were, and its own
      latest row finished or still dispatchable. */
  lemma ExecutionIsLocal(ledger: seq<Attempt>, runId: string, round: nat, call: ToolCall,
                         tool: Option<ReplayPolicy>, outcome: Outcome)
    requires UniqueRows(ledger) && ResultsKept(ledger)
    requires call.name.Some? ==> Resumable(ledger, round, call.id)
    ensures var after := Executed(ledger, runId, round, call, tool, outcome);
            && UniqueRows(after) && ResultsKept(after)
            && (forall id :: id != call.id ==> SameRows(ledger, after, id))
            && (call.name == None ==> after == ledger)
            && (call.name.Some? ==> Resumable(after, round, call.id))
  {
    hide UniqueRows, ResultsKept;
    if call.name.Some? {
      match PlanCall(ledger, runId, round, call.id, tool)
      case DispatchNew(a) => NewAttemptIsLocal(ledger, a, Concluded(a.(status := Started), outcome), round);
      case DispatchScheduled(a) => RewriteIsLocal(ledger, Concluded(a.(status := Started), outcome), round);
      case _ =>
    }
  }

  predicate IsFinished(a: Attempt) {
    (a.status == Completed && a.result.Some?) || a.status == AttemptFailed
  }

  lemma NewAttemptIsLocal(ledger: seq<Attempt>, a: Attempt, done: Attempt, round: nat)
    requires UniqueRows(ledger) && ResultsKept(ledger)
    requires a.round == Some(round) && a.number == NextNumber(ledger, a.id) && !HasUnscoped(ledger, a.id)
    requires done.id == a.id && done.number == a.number && done.round == a.round && IsFinished(done)
    ensures var after := PutAttempt(ledger + [a], done);
            && UniqueRows(after) && ResultsKept(after)
            && (forall id :: id != a.id ==> SameRows(ledger, after, id))
            && Resumable(after, round, a.id)
  {
    hide UniqueRows, ResultsKept, SameRows, Resumable, HasUnscoped, NextNumber, PutAttempt;
    PutNewest(ledger, a, done);
    RowIsNew(ledger, done);
    NewestResumes(ledger, done, round);
  }

  lemma RowIsNew(ledger: seq<Attempt>, done: Attempt)
    requires UniqueRows(ledger) && ResultsKept(ledger) && done.number == NextNumber(ledger, done.id) && IsFinished(done)
    ensures UniqueRows(ledger + [done]) && ResultsKept(ledger + [done])
    ensures forall id :: id != done.id ==> SameRows(ledger, ledger + [done], id)
  {
    var after := ledger + [done];
    forall i, j | 0 <= i < j < |after| ensures after[i].id != after[j].id || after[i].number != after[j].number {
      assert after[i] == ledger[i] && ledger[i] in ledger;
    }
  }

  lemma NewestResumes(ledger: seq<Attempt>, done: Attempt, round: nat)
    requires done.round == Some(round) && done.number == NextNumber(ledger, done.id) && !HasUnscoped(ledger, done.id)
    requires IsFinished(done)
    ensures Resumable(ledger + [done], round, done.id)
  {
    hide NextNumber;
    NewestIsLatest(ledger, done, round);
  }

  lemma PutNewest(ledger: seq<Attempt>, a: Attempt, done: Attempt)
    requires a.number == NextNumber(ledger, a.id) && done.id == a.id && done.number == a.number
    ensures PutAttempt(ledger + [a], done) == ledger + [done]
  {
    var after := PutAttempt(ledger + [a], done);
    forall i | 0 <= i < |ledger| ensures after[i] == ledger[i] {
      assert (ledger + [a])[i] == ledger[i];
      assert ledger[i] in ledger;
    }
  }

  lemma RewriteIsLocal(ledger: seq<Attempt>, done: Attempt, round: nat)
    requires UniqueRows(ledger) && ResultsKept(ledger)
    requires done.round == Some(round) && IsFinished(done) && !HasUnscoped(ledger, done.id)
    requires var was := Latest(ledger, round, done.id); was.Some? && was.value.number == done.number
    ensures var after := PutAttempt(ledger, done);
            && UniqueRows(after) && ResultsKept(after)
            && (forall id :: id != done.id ==> SameRows(ledger, after, id))
            && Resumable(after, round, done.id)
  {
    PutKeepsOthers(ledger, done);
    PutLatest(ledger, done, round);
  }

  lemma NewestIsLatest(ledger: seq<Attempt>, a: Attempt, round: nat)
    requires a.round == Some(round) && a.number == NextNumber(ledger, a.id)
    ensures Latest(ledger + [a], round, a.id) == Some(a)
  {
    assert (ledger + [a])[..|ledger|] == ledger;
  }

  lemma PutKeepsOthers(ledger: seq<Attempt>, a: Attempt)
    requires UniqueRows(ledger)
    ensures UniqueRows(PutAttempt(ledger, a))
    ensures forall id :: id != a.id ==> SameRows(ledger, PutAttempt(ledger, a), id)
  {
    var after := PutAttempt(ledger, a);
    forall id | id != a.id ensures SameRows(ledger, after, id) {
      forall x | x in ledger && x.id == id ensures x in after {
        var i :| 0 <= i < |ledger| && ledger[i] == x;
        assert after[i] == x;
      }
    }
  }

  /** Rewriting the latest row of a round keeps it the latest. */
  lemma PutLatest(ledger: seq<Attempt>, a: Attempt, round: nat)
    requires UniqueRows(ledger) && a.round == Some(round)
    requires var old_ := Latest(ledger, round, a.id); old_.Some? && old_.value.number == a.number
    ensures Latest(PutAttempt(ledger, a), round, a.id) == Some(a)
  {
    var after := PutAttempt(ledger, a);
    var was := Latest(ledger, round, a.id).value;
    var i :| 0 <= i < |ledger| && ledger[i] == was;
    assert after[i] == a;
    PutKeepsOthers(ledger, a);
    var now := Latest(after, round, a.id).value;
    var j :| 0 <= j < |after| && after[j] == now;
  }

  /** The calls without a name, which the executor runs past the ledger, have no open row. */
  predicate UnnamedReady(ledger: seq<Attempt>, round: nat, calls: seq<ToolCall>) {
    forall c :: c in calls && c.name == None ==> Resumable(ledger, round, c.id)
  }

  /** The classifier agrees with the executor: a round is tool_replay_ready exactly when executing
      its incomplete calls in order never meets an unknown outcome or a legacy row, and no call
      without a name has one either. */
  lemma {:induction false} ClassifierAgreesWithExecutor(
      ledger: seq<Attempt>, runId: string, round: nat, calls: seq<ToolCall>,
      tools: seq<Option<ReplayPolicy>>, outcomes: seq<Outcome>)
    requires |tools| == |outcomes| == |calls|
    requires UniqueRows(ledger) && ResultsKept(ledger)
    ensures ReplayReady(ledger, round, calls)
            <==> !Blocks(ledger, runId, round, calls, tools, outcomes) && UnnamedReady(ledger, round, calls)
    decreases |calls|
  {
    hide Executed, ReplayReady, UnnamedReady, Resumable, UniqueRows, ResultsKept, PlanCall;
    if calls == [] {
      NoCallIsReady(ledger, round);
    } else {
      var call, rest := calls[0], calls[1..];
      ReadySplits(ledger, round, calls);
      if Resumable(ledger, round, call.id) {
        var after := Executed(ledger, runId, round, call, tools[0], outcomes[0]);
        ExecutionIsLocal(ledger, runId, round, call, tools[0], outcomes[0]);
        SameReadiness(ledger, after, round, call);
        SameReady(ledger, after, round, rest);
        ClassifierAgreesWithExecutor(after, runId, round, rest, tools[1..], outcomes[1..]);
      }
      HeadRefuses(ledger, runId, round, call, tools[0]);
    }
  }

  lemma NoCallIsReady(ledger: seq<Attempt>, round: nat)
    ensures ReplayReady(ledger, round, []) && UnnamedReady(ledger, round, [])
  {
  }

  lemma ReadySplits(ledger: seq<Attempt>, round: nat, calls: seq<ToolCall>)
    requires calls != []
    ensures ReplayReady(ledger, round, calls)
            <==> Resumable(ledger, round, calls[0].id) && ReplayReady(ledger, round, calls[1..])
    ensures UnnamedReady(ledger, round, calls)
            <==> (calls[0].name == None ==> Resumable(ledger, round, calls[0].id)) && UnnamedReady(ledger, round, calls[1..])
  {
    hide Resumable;
    assert calls == [calls[0]] + calls[1..];
  }

  lemma SameReadiness(ledger: seq<Attempt>, after: seq<Attempt>, round: nat, call: ToolCall)
    requires UniqueRows(ledger) && UniqueRows(after)
    requires forall id :: id != call.id ==> SameRows(ledger, after, id)
    requires Resumable(ledger, round, call.id) && (after == ledger || Resumable(after, round, call.id))
    ensures forall id :: Resumable(after, round, id) <==> Resumable(ledger, round, id)
  {
    hide Latest, HasUnscoped, UniqueRows, CanRerun, SameRows;
    forall id ensures Resumable(after, round, id) <==> Resumable(ledger, round, id) {
      if id != call.id { LatestOfSameRows(ledger, after, round, id); }
    }
  }

  lemma SameReady(ledger: seq<Attempt>, after: seq<Attempt>, round: nat, calls: seq<ToolCall>)
    requires forall id :: Resumable(after, round, id) <==> Resumable(ledger, round, id)
    ensures ReplayReady(after, round, calls) <==> ReplayReady(ledger, round, calls)
    ensures UnnamedReady(after, round, calls) <==> UnnamedReady(ledger, round, calls)
  {
    hide Resumable;
  }

  lemma HeadRefuses(ledger: seq<Attempt>, runId: string, round: nat, call: ToolCall, tool: Option<ReplayPolicy>)
    ensures PlanCall(ledger, runId, round, call.id, tool) in {Refuse(LegacyAttempt), Refuse(UnknownOutcome)}
            <==> !Resumable(ledger, round, call.id)
  {
    hide HasUnscoped, Latest;
  }

  // -------------------------------------------------------------------- keys

  lemma {:induction false} DigitsInjective(m: nat, n: nat)
    requires Digits(m) == Digits(n)
    ensures m == n
  {
    var a, b := Digits(m), Digits(n);
    assert (m >= 10 <==> |a| >= 2) && (n >= 10 <==> |b| >= 2);
    if m >= 10 {
      assert a[..|a| - 1] == Digits(m / 10) && b[..|b| - 1] == Digits(n / 10);
      DigitsInjective(m / 10, n / 10);
      assert a[|a| - 1] == b[|b| - 1];
    } else {
      assert a[0] == b[0];
    }
  }

  lemma {:induction false} SplitAtColon(a: string, b: string, c: string, d: string)
    requires a + ":" + b == c + ":" + d
    requires ':' !in a && ':' !in c
    ensures a == c && b == d
  {
    var whole := a + ":" + b;
    assert whole == c + ":" + d;
    assert whole[|a|] == ':' && whole[|c|] == ':';
    assert a == whole[..|a|] && c == whole[..|c|];
    assert |a| == |c|;
    assert b == whole[|a| + 1..] == d;
  }

  /** Within one run a key names exactly one call of one round. */
  lemma KeyInjective(runId: string, round: nat, id: string, round': nat, id': string)
    ensures Key(runId, round, id) == Key(runId, round', id') <==> round == round' && id == id'
  {
    var a, b := Key(runId, round, id), Key(runId, round', id');
    if a == b {
      var x, y := Digits(round) + ":" + id, Digits(round') + ":" + id';
      assert a == (runId + ":") + x && b == (runId + ":") + y;
      assert x == a[|runId| + 1..] && y == b[|runId| + 1..];
      SplitAtColon(Digits(round), id, Digits(round'), id');
      DigitsInjective(round, round');
    }
  }
}
