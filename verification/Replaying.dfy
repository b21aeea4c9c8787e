/** What restoring a faithful snapshot from the whole journal builds. */
module Replaying {
  import opened Wrappers
  import opened Runs
  import opened Recovery
  import opened Machine
  import opened Agreement

  lemma ProgressPush(steps: seq<Step>, s: Step)
    ensures Progress(steps + [s]) == Progress(steps) + (if IsProgress(s) then [s.(eventId := None)] else [])
    ensures StepIds(steps + [s]) <= StepIds(steps) + (if s.eventId.Some? then {s.eventId.value} else {})
    ensures StepIds(steps) <= StepIds(steps + [s])
  {
    var all := steps + [s];
    assert all[..|all| - 1] == steps;
    forall id | id in StepIds(all) ensures id in StepIds(steps) || s.eventId == Some(id) {
      var i :| 0 <= i < |all| && all[i].eventId == Some(id);
      if i < |steps| { assert steps[i] == all[i]; }
    }
    forall id | id in StepIds(steps) ensures id in StepIds(all) {
      var i :| 0 <= i < |steps| && steps[i].eventId == Some(id);
      assert all[i] == steps[i];
    }
  }

  lemma TouchKeeps(steps: seq<Step>, kind: StepKind, id: nat)
    ensures Progress(Touch(steps, kind, id)) == Progress(steps)
    ensures StepIds(Touch(steps, kind, id)) <= StepIds(steps) + {id}
  {
    if steps != [] && steps[|steps| - 1].kind == kind {
      var front, last := steps[..|steps| - 1], steps[|steps| - 1];
      assert steps == front + [last];
      ProgressPush(front, last);
      ProgressPush(front, last.(eventId := Some(id)));
    }
  }

  function ResponseFrom(journal: seq<Event>, from: nat, end: nat, before: Option<Response>): Option<Response>
    requires from <= end <= |journal|
    decreases end
  {
    if end == from then before
    else if journal[end - 1].kind == ChatCompleted then journal[end - 1].response
    else ResponseFrom(journal, from, end - 1, before)
  }

  function RemainingFrom(journal: seq<Event>, from: nat, end: nat, before: int): int
    requires from <= end <= |journal|
    decreases end
  {
    if end == from then before
    else if journal[end - 1].kind == ChatCompleted && journal[end - 1].remaining.Some?
    then journal[end - 1].remaining.value
    else RemainingFrom(journal, from, end - 1, before)
  }

  /** A run a replay may start from: its step ids and its trace come from the journal's past. */
  ghost predicate Replayable(run: Run, journal: seq<Event>) {
    && run.applied <= |journal|
    && (forall id :: id in StepIds(run.steps) ==> IdKnown(journal, run.applied, id))
    && (forall t :: t in run.trace ==> t in journal)
  }

  ghost predicate Built(run: Run, journal: seq<Event>, end: nat, after: Run)
    requires run.applied <= end <= |journal|
  {
    && after.request == run.request
    && after.applied == end
    && Progress(after.steps) == Progress(run.steps) + Kept(journal, run.applied, end, {})
    && after.response == ResponseFrom(journal, run.applied, end, run.response)
    && after.remaining == RemainingFrom(journal, run.applied, end, run.remaining)
    && Replayable(after, journal)
    && BuiltTrace(run, journal, end, after)
  }

  /** Replay adds the events it takes in to the trace, and no others. */
  ghost predicate BuiltTrace(run: Run, journal: seq<Event>, end: nat, after: Run)
    requires run.applied <= end <= |journal|
  {
    && (forall t :: t in after.trace ==> t in run.trace || exists i :: run.applied <= i < end && journal[i] == t)
    && (forall t :: t in run.trace ==> t in after.trace)
    && (forall i :: run.applied <= i < end ==> journal[i] in after.trace)
  }

  lemma JournalIs(journal: seq<Event>, max: nat)
    requires JournalOk(journal, max)
    ensures IsJournal(journal, 0)
  {
  }

  lemma {:induction false} SavedInTrace(trace: seq<Event>, n: nat)
    ensures SavedEvent(trace, n).Some? ==> SavedEvent(trace, n).value in trace && SavedEvent(trace, n).value.sequence == Some(n)
  {
    if trace != [] { SavedInTrace(trace[..|trace| - 1], n); }
  }

  /** A trace copied from the journal never looks like a reused sequence. */
  lemma NoReuse(run: Run, journal: seq<Event>, max: nat, e: Event)
    requires JournalOk(journal, max) && Replayable(run, journal) && e in journal
    ensures !Reuses(run.trace, e)
  {
    if e.sequence.Some? {
      SavedInTrace(run.trace, e.sequence.value);
      var saved := SavedEvent(run.trace, e.sequence.value);
      if saved.Some? {
        assert saved.value in journal;
        var i :| 0 <= i < |journal| && journal[i] == saved.value;
        var j :| 0 <= j < |journal| && journal[j] == e;
        assert i == j;
      }
    }
  }

  lemma JournalTail(run: Run, journal: seq<Event>, max: nat)
    requires JournalOk(journal, max) && Replayable(run, journal)
    ensures Restore(run, journal) == Replay(run, StepIds(run.steps), journal[run.applied..])
  {
    JournalIs(journal, max);
    TailOfJournal(run, journal, 0);
    forall e | e in journal ensures !Reuses(run.trace, e) { NoReuse(run, journal, max, e); }
    RestoreReplays(run, journal, journal[run.applied..]);
  }

  /** One more event of the journal, replayed over what its prefix built. */
  lemma ReplayOne(run: Run, mid: Run, journal: seq<Event>, k: nat, seen: set<nat>, max: nat)
    requires JournalOk(journal, max) && run.applied <= k < |journal|
    requires Built(run, journal, k, mid) && mid.request.maxToolRounds == max
    requires journal[k].id.value !in seen
    ensures var (after, error) := Replay(mid, seen, [journal[k]]);
            error == None && Built(run, journal, k + 1, after)
  {
    hide Progress, StepIds, Replayable, BuiltTrace, Effect, EventIds;
    var e := journal[k];
    assert [e][1..] == [];
    EffectProgress(mid, e, max);
    var changed := Effect(mid, e).value;
    var after := Record(changed, e);
    assert Replay(mid, seen, [e]) == Replay(after, seen + EventIds([e]), []);
    StillReplayable(mid, changed, journal, k);
    TraceGrows(run, mid, changed, journal, k);
  }

  lemma StillReplayable(mid: Run, changed: Run, journal: seq<Event>, k: nat)
    requires k < |journal| && mid.applied == k && Replayable(mid, journal) && changed.trace == mid.trace
    requires journal[k].sequence == Some(k + 1) && journal[k].id.Some?
    requires StepIds(changed.steps) <= StepIds(mid.steps) + {journal[k].id.value}
    ensures Replayable(Record(changed, journal[k]), journal)
  {
    hide StepIds;
    var after := Record(changed, journal[k]);
    forall id | id in StepIds(after.steps) ensures IdKnown(journal, k + 1, id) {
      if journal[k].id != Some(id) {
        var i :| 0 <= i < k && i < |journal| && journal[i].id == Some(id);
      }
    }
  }

  lemma TraceGrows(run: Run, mid: Run, changed: Run, journal: seq<Event>, k: nat)
    requires run.applied <= k < |journal| && BuiltTrace(run, journal, k, mid) && changed.trace == mid.trace
    ensures BuiltTrace(run, journal, k + 1, Record(changed, journal[k]))
  {
  }

  lemma EffectProgress(run: Run, e: Event, max: nat)
    requires EventOk(e, max) && run.request.maxToolRounds == max
    ensures Effect(run, e).Success?
    ensures var changed := Effect(run, e).value;
            && changed.request == run.request && changed.applied == run.applied && changed.trace == run.trace
            && Progress(changed.steps) == Progress(run.steps) + (if IsProgressEvent(e) then [ProgressOf(e).value] else [])
            && changed.response == (if e.kind == ChatCompleted then e.response else run.response)
            && changed.remaining == (if e.kind == ChatCompleted then e.remaining.value else run.remaining)
            && StepIds(changed.steps) <= StepIds(run.steps) + {e.id.value}
  {
    hide Progress, StepIds, Round;
    var changed := Effect(run, e).value;
    if changed.steps != run.steps {
      var s := changed.steps[|run.steps|];
      assert changed.steps == run.steps + [s];
      ProgressPush(run.steps, s);
    }
  }

  lemma {:induction false} ReplayBuilds(run: Run, journal: seq<Event>, k: nat, max: nat)
    requires JournalOk(journal, max) && Replayable(run, journal) && run.request.maxToolRounds == max
    requires run.applied <= k <= |journal|
    ensures var (after, error) := Replay(run, StepIds(run.steps), journal[run.applied..k]);
            error == None && Built(run, journal, k, after)
    decreases k
  {
    hide Replayable, Effect, IsJournal, StepIds, EventOk, Kept, ResponseFrom, RemainingFrom, Progress;
    if k > run.applied {
      ReplayBuilds(run, journal, k - 1, max);
      var seen, first := StepIds(run.steps), journal[run.applied..k - 1];
      var mid := Replay(run, seen, first).0;
      assert journal[run.applied..k] == first + [journal[k - 1]];
      ReplayConcat(run, seen, first, [journal[k - 1]]);
      NotSeen(run, journal, k - 1, max);
      ReplayOne(run, mid, journal, k - 1, SeenAfter(run, seen, first), max);
    } else {
      BuiltFromNothing(run, journal);
      assert journal[run.applied..k] == [];
    }
  }

  /** What replaying the journal up to position k makes of the run. */
  function ReplayedTo(run: Run, journal: seq<Event>, k: nat): Run
    requires run.applied <= k <= |journal|
  {
    Replay(run, StepIds(run.steps), journal[run.applied..k]).0
  }

  /** Replay of an application's journal goes event by event, and takes each in. */
  lemma ReplayedStep(run: Run, journal: seq<Event>, k: nat, max: nat)
    requires JournalOk(journal, max) && Replayable(run, journal) && run.request.maxToolRounds == max
    requires run.applied <= k < |journal|
    ensures var mid, e := ReplayedTo(run, journal, k), journal[k];
            Effect(mid, e).Success? && ReplayedTo(run, journal, k + 1) == Record(Effect(mid, e).value, e)
  {
    hide Replayable, Effect, IsJournal, StepIds, Record, Kept, ResponseFrom, RemainingFrom, Progress, BuiltTrace, EventIds;
    ReplayBuilds(run, journal, k, max);
    var seen, first := StepIds(run.steps), journal[run.applied..k];
    var mid := Replay(run, seen, first).0;
    assert journal[run.applied..k + 1] == first + [journal[k]];
    ReplayConcat(run, seen, first, [journal[k]]);
    NotSeen(run, journal, k, max);
    EffectProgress(mid, journal[k], max);
    assert [journal[k]][1..] == [];
  }

  lemma ReplayedEnds(run: Run, journal: seq<Event>, max: nat)
    requires JournalOk(journal, max) && Replayable(run, journal) && run.request.maxToolRounds == max
    ensures ReplayedTo(run, journal, run.applied) == run
    ensures Restore(run, journal) == (ReplayedTo(run, journal, |journal|), None)
  {
    hide Replayable, JournalOk, StepIds;
    assert run.applied <= |journal| by { ReplayableIsWithin(run, journal); }
    assert journal[run.applied..run.applied] == [];
    assert journal[run.applied..|journal|] == journal[run.applied..];
    JournalTail(run, journal, max);
    ReplayBuilds(run, journal, |journal|, max);
  }

  lemma ReplayableIsWithin(run: Run, journal: seq<Event>)
    requires Replayable(run, journal)
    ensures run.applied <= |journal|
  {
  }

  lemma BuiltFromNothing(run: Run, journal: seq<Event>)
    requires Replayable(run, journal)
    ensures Built(run, journal, run.applied, run)
    ensures Replay(run, StepIds(run.steps), []) == (run, None)
  {
  }

  /** An event beyond the prefix has a new id. */
  lemma NotSeen(run: Run, journal: seq<Event>, k: nat, max: nat)
    requires JournalOk(journal, max) && Replayable(run, journal)
    requires run.applied <= k < |journal|
    ensures journal[k].id.value !in SeenAfter(run, StepIds(run.steps), journal[run.applied..k])
  {
    hide Replay, Effect, Record, EventIds, StepIds;
    var first := journal[run.applied..k];
    JournalIs(journal, max);
    assert IsJournal(first, run.applied);
    ReplayLeaves(run, StepIds(run.steps), first);
    SomeIdsBelow(journal, run.applied, k, max);
    var after := Replay(run, StepIds(run.steps), first).0;
    IdsOfPrefix(first, after.applied - run.applied);
    forall id | id in StepIds(run.steps) ensures id < journal[k].id.value {
      var i :| 0 <= i < run.applied && i < |journal| && journal[i].id == Some(id);
    }
  }

  lemma SomeIdsBelow(journal: seq<Event>, from: nat, k: nat, max: nat)
    requires JournalOk(journal, max) && from <= k < |journal|
    ensures forall id :: id in EventIds(journal[from..k]) ==> id < journal[k].id.value
  {
    forall id | id in EventIds(journal[from..k]) ensures id < journal[k].id.value {
      var i :| 0 <= i < k - from && journal[from..k][i].id == Some(id);
      assert journal[from + i].id == Some(id);
    }
  }

  lemma IdsOfPrefix(events: seq<Event>, n: nat)
    requires n <= |events|
    ensures EventIds(events[..n]) <= EventIds(events)
  {
    forall id | id in EventIds(events[..n]) ensures id in EventIds(events) {
      var i :| 0 <= i < n && events[..n][i].id == Some(id);
      assert events[i].id == Some(id);
    }
  }

  /** Recovery never rejects a journal the application wrote, and rebuilds it to its end. */
  lemma RestoreBuilds(run: Run, journal: seq<Event>, max: nat)
    requires JournalOk(journal, max) && Replayable(run, journal) && run.request.maxToolRounds == max
    ensures var (after, error) := Restore(run, journal);
            error == None && Built(run, journal, |journal|, after)
  {
    JournalTail(run, journal, max);
    ReplayBuilds(run, journal, |journal|, max);
    assert journal[run.applied..|journal|] == journal[run.applied..];
  }

  lemma {:induction false} LastFrom(journal: seq<Event>, from: nat, end: nat, skipped: set<nat>, max: nat)
    requires JournalOk(journal, max) && from <= end <= |journal|
    requires forall i :: from <= i < end && IsProgressEvent(journal[i]) ==> i !in skipped
    ensures LastResponse(journal, end, skipped) == ResponseFrom(journal, from, end, LastResponse(journal, from, skipped))
    ensures LastRemaining(journal, end, skipped, max)
            == RemainingFrom(journal, from, end, LastRemaining(journal, from, skipped, max))
    decreases end
  {
    if end > from {
      assert journal[end - 1].kind == ChatCompleted ==> IsProgressEvent(journal[end - 1]);
      LastFrom(journal, from, end - 1, skipped, max);
    }
  }

  lemma {:induction false} RemainingMonotone(journal: seq<Event>, from: nat, end: nat, a: int, b: int, max: nat)
    requires JournalOk(journal, max) && from <= end <= |journal|
    requires 0 <= a <= b <= max
    ensures 0 <= RemainingFrom(journal, from, end, a) <= RemainingFrom(journal, from, end, b) <= max
    decreases end
  {
    if end > from { RemainingMonotone(journal, from, end - 1, a, b, max); }
  }

  lemma {:induction false} ResponseMeans(journal: seq<Event>, from: nat, end: nat, response: Option<Response>, remaining: int, max: nat)
    requires JournalOk(journal, max) && from <= end <= |journal|
    requires response == None ==> remaining == max
    ensures ResponseFrom(journal, from, end, response) == None ==> RemainingFrom(journal, from, end, remaining) == max
    decreases end
  {
    if end > from { ResponseMeans(journal, from, end - 1, response, remaining, max); }
  }

  /** Restoring a faithful run that has skipped nothing beyond its watermark is faithful. */
  lemma RestoreFaithful(run: Run, journal: seq<Event>, skipped: set<nat>, request: Request)
    requires JournalOk(journal, request.maxToolRounds) && Faithful(run, journal, skipped, request)
    requires forall i :: i in skipped ==> i < run.applied
    ensures var (after, error) := Restore(run, journal);
            error == None && after.applied == |journal| && Faithful(after, journal, skipped, request)
  {
    hide Traced, Noticed, BuiltTrace, JournalOk, Progress, Kept, LastResponse, ResponseFrom;
    var max, n := request.maxToolRounds, |journal|;
    FaithfulIsReplayable(run, journal, skipped, request);
    RestoreBuilds(run, journal, max);
    KeptSplit(journal, run.applied, n, skipped);
    KeptFrame(journal, journal, run.applied, n, skipped, {});
    LastFrom(journal, run.applied, n, skipped, max);
    RemainingMonotone(journal, run.applied, n, run.remaining, LastRemaining(journal, run.applied, skipped, max), max);
    ResponseMeans(journal, run.applied, n, run.response, run.remaining, max);
    NoTwins(journal, max);
    RestoredTrace(run, journal, skipped, Restore(run, journal).0);
  }

  lemma NoTwins(journal: seq<Event>, max: nat)
    requires JournalOk(journal, max)
    ensures forall i, j :: 0 <= i < j < |journal| ==> journal[i] != journal[j]
  {
    forall i, j | 0 <= i < j < |journal| ensures journal[i] != journal[j] {
      assert journal[i].id.value < journal[j].id.value;
    }
  }

  lemma FaithfulIsReplayable(run: Run, journal: seq<Event>, skipped: set<nat>, request: Request)
    requires Faithful(run, journal, skipped, request)
    ensures Replayable(run, journal)
  {
  }

  lemma RestoredTrace(run: Run, journal: seq<Event>, skipped: set<nat>, after: Run)
    requires run.applied <= |journal| == after.applied && BuiltTrace(run, journal, |journal|, after)
    requires (forall t :: t in run.trace ==> Noticed(journal, run.applied, t)) && Traced(run, journal, skipped)
    requires forall i :: i in skipped ==> i < run.applied
    requires forall i, j :: 0 <= i < j < |journal| ==> journal[i] != journal[j]
    ensures (forall t :: t in after.trace ==> Noticed(journal, |journal|, t)) && Traced(after, journal, skipped)
  {
    forall t | t in after.trace ensures Noticed(journal, |journal|, t) {
      if t in run.trace {
        var i :| 0 <= i < run.applied && i < |journal| && journal[i] == t;
      }
    }
  }
}
