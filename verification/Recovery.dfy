/** Replaying the journal over a snapshot (application/agent_recovery.py). */
module Recovery {
  import opened Wrappers
  import opened Runs

  datatype RecoveryError = SequenceReused | MissingEvents | NoResponse | NoToolCall | UnknownStop

  /** The last event of a trace with a given sequence, as the dictionary built from it would hold. */
  function SavedEvent(trace: seq<Event>, n: nat): Option<Event> {
    if trace == [] then None
    else
      var last := trace[|trace| - 1];
      if last.sequence == Some(n) then Some(last) else SavedEvent(trace[..|trace| - 1], n)
  }

  predicate Reuses(trace: seq<Event>, e: Event) {
    e.sequence.Some? &&
    var saved := SavedEvent(trace, e.sequence.value);
    saved.Some? && saved.value.id.Some? && e.id.Some? && saved.value.id != e.id
  }

  predicate ReusedIn(run: Run, events: seq<Event>) {
    exists e :: e in events && Reuses(run.trace, e)
  }

  predicate Beyond(e: Event, applied: nat) {
    e.sequence == None || e.sequence.value > applied
  }

  function After(events: seq<Event>, applied: nat): seq<Event> {
    if events == [] then []
    else if Beyond(events[0], applied) then [events[0]] + After(events[1..], applied)
    else After(events[1..], applied)
  }

  /** _require_contiguous_trace: sequenced events count up by one from `previous`. */
  predicate Contiguous(events: seq<Event>, previous: nat) {
    events == [] ||
    if events[0].sequence == None then Contiguous(events[1..], previous)
    else events[0].sequence.value == previous + 1 && Contiguous(events[1..], previous + 1)
  }

  /** _checkpoint_trace_tail for a snapshot with a watermark. */
  function Tail(run: Run, events: seq<Event>): Result<seq<Event>, RecoveryError> {
    if ReusedIn(run, events) then Failure(SequenceReused)
    else
      var tail := After(events, run.applied);
      if Contiguous(tail, run.applied) then Success(tail) else Failure(MissingEvents)
  }

  function EventIds(events: seq<Event>): set<nat> {
    set i | 0 <= i < |events| && events[i].id.Some? :: events[i].id.value
  }

  function StepIds(steps: seq<Step>): set<nat> {
    set i | 0 <= i < |steps| && steps[i].eventId.Some? :: steps[i].eventId.value
  }

  /** The progress step an event stands for, before it is given an event id. */
  function ProgressOf(e: Event): Option<Step> {
    match e.kind
    case ChatCompleted =>
      if e.response == None then None
      else Some(BareStep(ChatStep).(
                  response := e.response,
                  message := if e.message.Some? then e.message else Some(e.response.value.message)))
    case ToolCompleted =>
      if e.call == None then None
      else Some(BareStep(ToolStep).(message := e.message, call := e.call, result := e.result, error := e.error))
    case ToolFailed =>
      if e.call == None then None
      else Some(BareStep(ToolErrorStep).(message := e.message, call := e.call, result := e.result, error := e.error))
    case _ => None
  }

  /** The rounds left after a replayed response: its own record when sane, else a recount. */
  function RemainingAfter(run: Run, e: Event): int {
    var max := run.request.maxToolRounds;
    if e.remaining.Some? && 0 <= e.remaining.value <= max then e.remaining.value
    else if max > Round(run.steps) then max - Round(run.steps) else 0
  }

  /** What replaying one event does to the run, apart from the watermark and the trace. */
  function Effect(run: Run, e: Event): Result<Run, RecoveryError> {
    match e.kind
    case ChatCompleted =>
      if e.response == None then Failure(NoResponse)
      else Success(run.(remaining := RemainingAfter(run, e),
                        response := e.response,
                        pendingCalls := [],
                        pendingApprovals := [],
                        steps := run.steps + [ProgressOf(e).value.(eventId := e.id)]))
    case ToolCompleted =>
      if e.call == None then Failure(NoToolCall)
      else Success(run.(steps := run.steps + [ProgressOf(e).value.(eventId := e.id)]))
    case ToolFailed =>
      if e.call == None then Failure(NoToolCall)
      else Success(run.(steps := run.steps + [ProgressOf(e).value.(eventId := e.id)]))
    case ApprovalRequested =>
      if e.approval == None then Success(run)
      else Success(run.(pendingApprovals := run.pendingApprovals + [e.approval.value],
                        pendingCalls := CallsOf(run.response)))
    case MemoryWritten =>
      Success(run.(steps := run.steps + [BareStep(MemoryStep).(eventId := e.id)]))
    case RunStopped => StopEffect(run, e)
    case _ => Success(run)
  }

  function StopEffect(run: Run, e: Event): Result<Run, RecoveryError> {
    var cleared := run.(pendingCalls := [], pendingApprovals := []);
    match e.stop
    case StopBy(reason) =>
      var stopped := exists s :: s in run.steps && s.kind == StopStep;
      Success(cleared.(stop := Some(reason),
                       status := if reason == Finished then Done else Failed,
                       steps := if stopped then run.steps
                                else run.steps + [BareStep(StopStep).(eventId := e.id)]))
    case FailedText => Success(cleared.(status := Failed, stop := None))
    case CanceledText => Success(cleared.(status := Canceled, stop := None))
    case OtherText => Failure(UnknownStop)
  }

  function Advance(run: Run, e: Event): Run {
    if e.sequence.Some? then run.(applied := e.sequence.value) else run
  }

  function Record(run: Run, e: Event): Run {
    Advance(run, e).(trace := if e in run.trace then run.trace else run.trace + [e])
  }

  /** The replay loop. An error leaves the run as it stood before the offending event. */
  function Replay(run: Run, seen: set<nat>, tail: seq<Event>): (Run, Option<RecoveryError>)
    decreases |tail|
  {
    if tail == [] then (run, None)
    else
      var e := tail[0];
      if e.id.Some? && e.id.value in seen then Replay(Advance(run, e), seen, tail[1..])
      else match Effect(run, e)
        case Failure(error) => (run, Some(error))
        case Success(changed) => Replay(Record(changed, e), seen + EventIds([e]), tail[1..])
  }

  /** _restore_checkpoint_data. */
  function Restore(run: Run, events: seq<Event>): (Run, Option<RecoveryError>) {
    match Tail(run, events)
    case Failure(error) => (run, Some(error))
    case Success(tail) => Replay(run, StepIds(run.steps), tail)
  }

  /** Replay never pauses a run. */
  lemma {:induction false} ReplayStatus(run: Run, seen: set<nat>, tail: seq<Event>)
    requires run.status != Paused
    ensures Replay(run, seen, tail).0.status != Paused
    decreases |tail|
  {
    if tail != [] {
      var e := tail[0];
      if e.id.Some? && e.id.value in seen {
        ReplayStatus(Advance(run, e), seen, tail[1..]);
      } else if Effect(run, e).Success? {
        ReplayStatus(Record(Effect(run, e).value, e), seen + EventIds([e]), tail[1..]);
      }
    }
  }

  lemma RestoreStatus(run: Run, journal: seq<Event>)
    requires run.status != Paused
    ensures Restore(run, journal).0.status != Paused
  {
    match Tail(run, journal)
    case Failure(_) =>
    case Success(tail) => ReplayStatus(run, StepIds(run.steps), tail);
  }

  // ---------------------------------------------------------------- journals

  /** A journal as the trace register keeps it from event `base` on: consecutive
      sequence numbers and distinct event ids. */
  ghost predicate IsJournal(events: seq<Event>, base: nat) {
    && (forall i :: 0 <= i < |events| ==> events[i].sequence == Some(base + i + 1))
    && (forall i :: 0 <= i < |events| ==> events[i].id.Some?)
    && (forall i, j :: 0 <= i < j < |events| ==> events[i].id != events[j].id)
  }

  /** A watermark cuts a journal exactly at its own position. */
  lemma {:induction false} AfterCuts(events: seq<Event>, base: nat, applied: nat)
    requires IsJournal(events, base)
    requires base <= applied <= base + |events|
    ensures After(events, applied) == events[applied - base..]
    ensures Contiguous(After(events, applied), applied)
    decreases |events|
  {
    if events != [] {
      var rest := events[1..];
      assert IsJournal(rest, base + 1);
      if applied == base {
        AfterCuts(rest, base + 1, base + 1);
        AfterAll(rest, base);
        assert After(events, applied) == events;
      } else {
        AfterCuts(rest, base + 1, applied);
        assert rest[applied - (base + 1)..] == events[applied - base..];
      }
    }
  }

  lemma {:induction false} AfterAll(events: seq<Event>, applied: nat)
    requires forall i :: 0 <= i < |events| ==> Beyond(events[i], applied)
    ensures After(events, applied) == events
    decreases |events|
  {
    if events != [] {
      AfterAll(events[1..], applied);
      assert events == [events[0]] + events[1..];
    }
  }

  /** A gap is rejected, never skipped: the tail is accepted exactly when its sequenced
      events are numbered watermark + 1, watermark + 2, and so on. */
  lemma {:induction false} GapIsRejected(events: seq<Event>, previous: nat)
    requires forall i :: 0 <= i < |events| ==> events[i].sequence.Some?
    ensures Contiguous(events, previous) <==>
            forall i :: 0 <= i < |events| ==> events[i].sequence == Some(previous + 1 + i)
    decreases |events|
  {
    if events != [] {
      var rest := events[1..];
      GapIsRejected(rest, previous + 1);
      assert forall i :: 0 <= i < |rest| ==> rest[i] == events[i + 1];
      if Contiguous(events, previous) {
        forall i | 0 <= i < |events| ensures events[i].sequence == Some(previous + 1 + i) {
          if i > 0 { assert events[i] == rest[i - 1]; }
        }
      }
    }
  }

  // ------------------------------------------------------------- composition

  lemma {:induction false} ReplayConcat(run: Run, seen: set<nat>, first: seq<Event>, second: seq<Event>)
    ensures Replay(run, seen, first + second) ==
            (var (mid, error) := Replay(run, seen, first);
             if error.Some? then (mid, error) else Replay(mid, SeenAfter(run, seen, first), second))
    decreases |first|
  {
    if first == [] {
      assert first + second == second;
    } else {
      var e := first[0];
      assert (first + second)[1..] == first[1..] + second;
      if e.id.Some? && e.id.value in seen {
        ReplayConcat(Advance(run, e), seen, first[1..], second);
      } else if Effect(run, e).Success? {
        ReplayConcat(Record(Effect(run, e).value, e), seen + EventIds([e]), first[1..], second);
      }
    }
  }

  /** The ids the loop holds after a prefix: those it started with and those it met. */
  function SeenAfter(run: Run, seen: set<nat>, events: seq<Event>): set<nat>
    decreases |events|
  {
    if events == [] then seen
    else
      var e := events[0];
      if e.id.Some? && e.id.value in seen then SeenAfter(Advance(run, e), seen, events[1..])
      else match Effect(run, e)
        case Failure(_) => seen
        case Success(changed) => SeenAfter(Record(changed, e), seen + EventIds([e]), events[1..])
  }

  /** Only the ids of the events still to come matter. */
  lemma {:induction false} SeenMatters(run: Run, a: set<nat>, b: set<nat>, tail: seq<Event>)
    requires forall i :: 0 <= i < |tail| && tail[i].id.Some? ==> (tail[i].id.value in a <==> tail[i].id.value in b)
    ensures Replay(run, a, tail) == Replay(run, b, tail)
    decreases |tail|
  {
    if tail != [] {
      var e, rest := tail[0], tail[1..];
      assert forall i :: 0 <= i < |rest| ==> rest[i] == tail[i + 1];
      if e.id.Some? && e.id.value in a {
        SeenMatters(Advance(run, e), a, b, rest);
      } else if Effect(run, e).Success? {
        SeenMatters(Record(Effect(run, e).value, e), a + EventIds([e]), b + EventIds([e]), rest);
      }
    }
  }

  /** What one replay leaves behind: the watermark, ids and trace a second replay starts from. */
  lemma {:induction false} ReplayLeaves(run: Run, seen: set<nat>, tail: seq<Event>)
    requires IsJournal(tail, run.applied)
    requires StepIds(run.steps) <= seen
    ensures var (after, error) := Replay(run, seen, tail);
            && (error == None ==> after.applied == run.applied + |tail|)
            && run.applied <= after.applied <= run.applied + |tail|
            && (error.Some? ==> after.applied < run.applied + |tail|)
            && after.request == run.request
            && StepIds(run.steps) <= StepIds(after.steps) <= seen + EventIds(tail[..after.applied - run.applied])
            && SeenAfter(run, seen, tail) <= seen + EventIds(tail[..after.applied - run.applied])
            && seen <= SeenAfter(run, seen, tail)
    decreases |tail|
  {
    hide Effect, StepIds, EventIds;
    if tail != [] {
      var e, rest := tail[0], tail[1..];
      assert IsJournal(rest, run.applied + 1);
      var (after, error) := Replay(run, seen, tail);
      if e.id.Some? && e.id.value in seen {
        var next := Advance(run, e);
        ReplayLeaves(next, seen, rest);
        assert rest[..after.applied - next.applied] == tail[..after.applied - run.applied][1..];
        IdsCons(tail[..after.applied - run.applied]);
      } else {
        match Effect(run, e)
        case Failure(_) =>
          assert tail[..0] == [];
        case Success(changed) =>
          var next := Record(changed, e);
          EffectIds(run, e);
          ReplayLeaves(next, seen + EventIds([e]), rest);
          assert rest[..after.applied - next.applied] == tail[..after.applied - run.applied][1..];
          IdsCons(tail[..after.applied - run.applied]);
      }
    }
  }

  lemma IdsCons(events: seq<Event>)
    requires events != []
    ensures EventIds(events) == EventIds([events[0]]) + EventIds(events[1..])
  {
    var rest := events[1..];
    forall x | x in EventIds(events) ensures x in EventIds([events[0]]) + EventIds(rest) {
      var i :| 0 <= i < |events| && events[i].id.Some? && events[i].id.value == x;
      if i > 0 { assert rest[i - 1] == events[i]; } else { assert [events[0]][0] == events[0]; }
    }
    forall x | x in EventIds([events[0]]) + EventIds(rest) ensures x in EventIds(events) {
      if x in EventIds(rest) {
        var i :| 0 <= i < |rest| && rest[i].id.Some? && rest[i].id.value == x;
        assert events[i + 1] == rest[i];
      }
    }
  }

  lemma EffectIds(run: Run, e: Event)
    requires Effect(run, e).Success?
    ensures var changed := Effect(run, e).value;
            && changed.applied == run.applied && changed.trace == run.trace && changed.request == run.request
            && StepIds(run.steps) <= StepIds(changed.steps) <= StepIds(run.steps) + EventIds([e])
  {
    var changed := Effect(run, e).value;
    assert changed.steps == run.steps || (|changed.steps| == |run.steps| + 1 && changed.steps[..|run.steps|] == run.steps
                                          && changed.steps[|run.steps|].eventId == e.id);
    assert [e][0] == e;
    forall x | x in StepIds(run.steps) ensures x in StepIds(changed.steps) {
      var i :| 0 <= i < |run.steps| && run.steps[i].eventId.Some? && run.steps[i].eventId.value == x;
      assert changed.steps[i] == run.steps[i];
    }
    forall x | x in StepIds(changed.steps) ensures x in StepIds(run.steps) + EventIds([e]) {
      var i :| 0 <= i < |changed.steps| && changed.steps[i].eventId.Some? && changed.steps[i].eventId.value == x;
      if i < |run.steps| { assert changed.steps[i] == run.steps[i]; }
    }
  }

  lemma {:induction false} SavedAgrees(old_: seq<Event>, now: seq<Event>, events: seq<Event>, base: nat, e: Event)
    requires IsJournal(events, base) && e in events
    requires old_ <= now
    requires forall i :: |old_| <= i < |now| ==> now[i] in events
    requires !Reuses(old_, e)
    ensures !Reuses(now, e)
    decreases |now|
  {
    if |now| > |old_| {
      var last := now[|now| - 1];
      if last.sequence == e.sequence {
        var i :| 0 <= i < |events| && events[i] == last;
        var j :| 0 <= j < |events| && events[j] == e;
        assert i == j;
      } else {
        SavedAgrees(old_, now[..|now| - 1], events, base, e);
        var front := now[..|now| - 1];
        assert forall i :: |old_| <= i < |front| ==> front[i] == now[i];
      }
    } else {
      assert now == old_;
    }
  }

  /** Replay appends only journal events to the trace. */
  lemma {:induction false} ReplayTrace(run: Run, seen: set<nat>, tail: seq<Event>)
    ensures var after := Replay(run, seen, tail).0;
            run.trace <= after.trace && forall i :: |run.trace| <= i < |after.trace| ==> after.trace[i] in tail
    decreases |tail|
  {
    if tail != [] {
      var e, rest := tail[0], tail[1..];
      assert forall t :: t in rest ==> t in tail;
      if e.id.Some? && e.id.value in seen {
        ReplayTrace(Advance(run, e), seen, rest);
      } else if Effect(run, e).Success? {
        EffectIds(run, e);
        var next := Record(Effect(run, e).value, e);
        ReplayTrace(next, seen + EventIds([e]), rest);
      }
    }
  }

  lemma TailOfJournal(run: Run, events: seq<Event>, base: nat)
    requires IsJournal(events, base)
    requires base <= run.applied <= base + |events|
    ensures Tail(run, events) == if ReusedIn(run, events) then Failure(SequenceReused)
                                 else Success(events[run.applied - base..])
  {
    AfterCuts(events, base, run.applied);
  }

  lemma TailOfPrefix(run: Run, events: seq<Event>, base: nat, k: nat)
    requires IsJournal(events, base)
    requires base <= run.applied <= base + k && k <= |events|
    requires Tail(run, events).Success?
    ensures Tail(run, events[..k]) == Success(events[run.applied - base..k])
  {
    var prefix := events[..k];
    TailOfJournal(run, events, base);
    assert IsJournal(prefix, base);
    forall e | e in prefix ensures !Reuses(run.trace, e) { assert e in events; }
    TailOfJournal(run, prefix, base);
    assert prefix[run.applied - base..] == events[run.applied - base..k];
  }

  lemma TailAfterReplay(run: Run, mid: Run, events: seq<Event>, base: nat)
    requires IsJournal(events, base)
    requires base <= run.applied <= base + |events| && base <= mid.applied <= base + |events|
    requires Tail(run, events).Success?
    requires run.trace <= mid.trace
    requires forall i :: |run.trace| <= i < |mid.trace| ==> mid.trace[i] in events
    ensures Tail(mid, events) == Success(events[mid.applied - base..])
  {
    TailOfJournal(run, events, base);
    TailOfJournal(mid, events, base);
    forall e | e in events ensures !Reuses(mid.trace, e) {
      SavedAgrees(run.trace, mid.trace, events, base, e);
    }
  }

  /** Replay composes: restoring from a prefix of the journal and then from all of it is restoring
      from all of it once, unless the rest reuses a sequence number of the snapshot's trace. Then
      both fail with the same error, but only the restore at once leaves the snapshot as it was. */
  lemma ReplayComposes(run: Run, events: seq<Event>, base: nat, k: nat)
    requires IsJournal(events, base)
    requires base <= run.applied <= base + k && k <= |events|
    ensures var (mid, error) := Restore(run, events[..k]);
            if ReusedIn(run, events[k..]) then
              && Restore(run, events) == (run, Some(SequenceReused))
              && (error == None ==> Restore(mid, events) == (mid, Some(SequenceReused)))
            else if error.Some? then (mid, error) == Restore(run, events)
            else Restore(mid, events) == Restore(run, events)
  {
    hide IsJournal, Reuses, Replay;
    TailOfJournal(run, events, base);
    PrefixTail(run, events, base, k);
    if ReusedIn(run, events[k..]) {
      ReusedLater(run, events, base, k);
    } else if !ReusedIn(run, events) {
      CleanComposes(run, events, base, k);
    } else {
      assert ReusedIn(run, events[..k]) by { ReusedSplits(run, events, k); }
    }
  }

  lemma ReusedSplits(run: Run, events: seq<Event>, k: nat)
    requires k <= |events|
    ensures ReusedIn(run, events) <==> ReusedIn(run, events[..k]) || ReusedIn(run, events[k..])
  {
    hide Reuses;
    assert events == events[..k] + events[k..];
  }

  lemma PrefixTail(run: Run, events: seq<Event>, base: nat, k: nat)
    requires IsJournal(events, base)
    requires base <= run.applied <= base + k && k <= |events|
    ensures Tail(run, events[..k]) == if ReusedIn(run, events[..k]) then Failure(SequenceReused)
                                      else Success(events[run.applied - base..k])
  {
    hide Reuses;
    var prefix := events[..k];
    assert IsJournal(prefix, base);
    TailOfJournal(run, prefix, base);
    assert prefix[run.applied - base..] == events[run.applied - base..k];
  }

  lemma ReusedLater(run: Run, events: seq<Event>, base: nat, k: nat)
    requires IsJournal(events, base)
    requires base <= run.applied <= base + k && k <= |events| && ReusedIn(run, events[k..])
    ensures Restore(run, events) == (run, Some(SequenceReused))
    ensures var (mid, error) := Restore(run, events[..k]);
            error == None ==> Restore(mid, events) == (mid, Some(SequenceReused))
  {
    hide IsJournal, Reuses, Replay;
    ReusedSplits(run, events, k);
    PrefixTail(run, events, base, k);
    var (mid, error) := Restore(run, events[..k]);
    if error == None {
      var i :| k <= i < |events| && Reuses(run.trace, events[i]) by { LaterIndex(run, events, k); }
      MidTrace(run, mid, events[run.applied - base..k]);
      assert forall x :: x in events[run.applied - base..k] ==> x in events[..k];
      ReuseStays(run.trace, mid.trace, events, base, k, i);
      assert events[i] in events;
    }
  }

  lemma LaterIndex(run: Run, events: seq<Event>, k: nat)
    requires k <= |events| && ReusedIn(run, events[k..])
    ensures exists i :: k <= i < |events| && Reuses(run.trace, events[i])
  {
    hide Reuses;
    var e :| e in events[k..] && Reuses(run.trace, e);
    var j :| 0 <= j < |events[k..]| && events[k..][j] == e;
    assert events[k + j] == e;
  }

  /** Events before position k do not take the place of a reused one behind it. */
  lemma {:induction false} ReuseStays(old_: seq<Event>, now: seq<Event>, events: seq<Event>, base: nat, k: nat, i: nat)
    requires IsJournal(events, base) && k <= i < |events|
    requires old_ <= now && forall n :: |old_| <= n < |now| ==> now[n] in events[..k]
    requires Reuses(old_, events[i])
    ensures Reuses(now, events[i])
    decreases |now|
  {
    if |now| > |old_| {
      var last, front := now[|now| - 1], now[..|now| - 1];
      var j :| 0 <= j < k && events[..k][j] == last;
      assert last.sequence == Some(base + j + 1);
      assert forall n :: |old_| <= n < |front| ==> front[n] == now[n];
      ReuseStays(old_, front, events, base, k, i);
    } else {
      assert now == old_;
    }
  }

  lemma CleanComposes(run: Run, events: seq<Event>, base: nat, k: nat)
    requires IsJournal(events, base)
    requires base <= run.applied <= base + k && k <= |events|
    requires Tail(run, events).Success?
    ensures var (mid, error) := Restore(run, events[..k]);
            if error.Some? then (mid, error) == Restore(run, events)
            else Restore(mid, events) == Restore(run, events)
  {
    var cut := run.applied - base;
    var first, second := events[cut..k], events[k..];
    TailOfJournal(run, events, base);
    TailOfPrefix(run, events, base, k);
    assert events[cut..] == first + second;
    var seen := StepIds(run.steps);
    ReplayConcat(run, seen, first, second);
    var (mid, error) := Replay(run, seen, first);
    if error == None {
      ResumesReplay(run, mid, events, base, k);
    }
  }

  lemma RestoreReplays(run: Run, events: seq<Event>, tail: seq<Event>)
    requires Tail(run, events) == Success(tail)
    ensures Restore(run, events) == Replay(run, StepIds(run.steps), tail)
  {
  }

  lemma ResumesReplay(run: Run, mid: Run, events: seq<Event>, base: nat, k: nat)
    requires IsJournal(events, base)
    requires base <= run.applied <= base + k && k <= |events|
    requires Tail(run, events).Success?
    requires Replay(run, StepIds(run.steps), events[run.applied - base..k]) == (mid, None)
    ensures Restore(mid, events)
            == Replay(mid, SeenAfter(run, StepIds(run.steps), events[run.applied - base..k]), events[k..])
  {
    var first := events[run.applied - base..k];
    var seen := StepIds(run.steps);
    assert IsJournal(first, run.applied);
    MidSeen(run, mid, first);
    MidTrace(run, mid, first);
    MidTail(run, mid, events, base, k);
    LaterIdsAreFresh(events, run.applied - base, k);
    RestoreReplays(mid, events, events[k..]);
    SeenBetween(mid, SeenAfter(run, seen, first), StepIds(mid.steps), seen, EventIds(first), events[k..]);
  }

  lemma MidTail(run: Run, mid: Run, events: seq<Event>, base: nat, k: nat)
    requires IsJournal(events, base)
    requires base <= run.applied <= base + k && k <= |events|
    requires Tail(run, events).Success?
    requires mid.applied == base + k && run.trace <= mid.trace
    requires forall i :: |run.trace| <= i < |mid.trace| ==> mid.trace[i] in events[run.applied - base..k]
    ensures Tail(mid, events) == Success(events[k..])
  {
    forall i | |run.trace| <= i < |mid.trace| ensures mid.trace[i] in events {
      assert mid.trace[i] in events[run.applied - base..k];
    }
    TailAfterReplay(run, mid, events, base);
  }

  lemma MidSeen(run: Run, mid: Run, first: seq<Event>)
    requires IsJournal(first, run.applied)
    requires Replay(run, StepIds(run.steps), first) == (mid, None)
    ensures var seen := StepIds(run.steps);
            && seen <= StepIds(mid.steps) <= seen + EventIds(first)
            && seen <= SeenAfter(run, seen, first) <= seen + EventIds(first)
    ensures mid.applied == run.applied + |first|
  {
    assert first[..|first|] == first;
    ReplayLeaves(run, StepIds(run.steps), first);
  }

  lemma MidTrace(run: Run, mid: Run, first: seq<Event>)
    requires Replay(run, StepIds(run.steps), first) == (mid, None)
    ensures run.trace <= mid.trace && forall i :: |run.trace| <= i < |mid.trace| ==> mid.trace[i] in first
  {
    ReplayTrace(run, StepIds(run.steps), first);
  }

  lemma SeenBetween(run: Run, a: set<nat>, b: set<nat>, low: set<nat>, more: set<nat>, tail: seq<Event>)
    requires low <= a <= low + more && low <= b <= low + more
    requires EventIds(tail) !! more
    ensures Replay(run, a, tail) == Replay(run, b, tail)
  {
    forall i | 0 <= i < |tail| && tail[i].id.Some? ensures tail[i].id.value in a <==> tail[i].id.value in b {
      assert tail[i].id.value in EventIds(tail);
    }
    SeenMatters(run, a, b, tail);
  }

  lemma LaterIdsAreFresh(events: seq<Event>, cut: nat, k: nat)
    requires cut <= k <= |events|
    requires forall i, j :: 0 <= i < j < |events| ==> events[i].id != events[j].id
    ensures EventIds(events[k..]) !! EventIds(events[cut..k])
  {
    forall i | 0 <= i < |events| - k && events[k..][i].id.Some?
      ensures events[k..][i].id.value !in EventIds(events[cut..k])
    {
      LaterIdIsFresh(events, cut, k, k + i);
    }
  }

  lemma LaterIdIsFresh(events: seq<Event>, cut: nat, k: nat, i: nat)
    requires cut <= k <= i < |events| && events[i].id.Some?
    requires forall i, j :: 0 <= i < j < |events| ==> events[i].id != events[j].id
    ensures events[i].id.value !in EventIds(events[cut..k])
  {
    forall j | 0 <= j < k - cut ensures events[cut..k][j].id != events[i].id {
      assert events[cut..k][j] == events[cut + j];
    }
  }

  /** Restoring twice is restoring once, whether or not the first restore failed. */
  lemma RestoreIsIdempotent(run: Run, events: seq<Event>, base: nat)
    requires IsJournal(events, base)
    requires base <= run.applied <= base + |events|
    ensures var (once, error) := Restore(run, events); Restore(once, events) == (once, error)
  {
    hide Reuses, Replay;
    if Tail(run, events).Success? {
      var once := Restore(run, events).0;
      TailOfJournal(run, events, base);
      var seen, tail := StepIds(run.steps), events[run.applied - base..];
      assert IsJournal(tail, run.applied);
      StopsBeforeError(run, seen, tail);
      var k := once.applied - base;
      assert tail[..once.applied - run.applied] == events[run.applied - base..k];
      TailOfPrefix(run, events, base, k);
      ReplayComposes(run, events, base, k);
    }
  }

  lemma ReplayHead(run: Run, seen: set<nat>, tail: seq<Event>)
    requires tail != [] && tail[0].id.Some?
    ensures var effect := Effect(run, tail[0]);
            Replay(run, seen, tail)
            == if tail[0].id.value in seen then Replay(Advance(run, tail[0]), seen, tail[1..])
               else if effect.Failure? then (run, Some(effect.error))
               else Replay(Record(effect.value, tail[0]), seen + EventIds([tail[0]]), tail[1..])
  {
  }

  lemma NothingReplayed(run: Run, seen: set<nat>)
    ensures Replay(run, seen, []) == (run, None)
  {
  }

  lemma CutTail(tail: seq<Event>, n: nat)
    requires 0 < n <= |tail|
    ensures tail[..n] != [] && tail[..n][0] == tail[0] && tail[..n][1..] == tail[1..][..n - 1]
  {
  }

  lemma RecordAdvances(run: Run, e: Event)
    requires Effect(run, e).Success? && e.sequence == Some(run.applied + 1)
    ensures Record(Effect(run, e).value, e).applied == run.applied + 1
    ensures Record(Effect(run, e).value, e).steps == Effect(run, e).value.steps
  {
  }

  /** The run an error leaves behind is the one its good prefix leads to. */
  lemma {:induction false} StopsBeforeError(run: Run, seen: set<nat>, tail: seq<Event>)
    requires IsJournal(tail, run.applied) && StepIds(run.steps) <= seen
    ensures var after := Replay(run, seen, tail).0;
            && run.applied <= after.applied <= run.applied + |tail|
            && Replay(run, seen, tail[..after.applied - run.applied]) == (after, None)
    decreases |tail|
  {
    hide Effect, Record, StepIds, EventIds, Replay;
    ReplayLeaves(run, seen, tail);
    if tail != [] {
      var e, rest := tail[0], tail[1..];
      var after := Replay(run, seen, tail).0;
      assert IsJournal(rest, run.applied + 1);
      ReplayHead(run, seen, tail);
      if e.id.value in seen {
        var next := Advance(run, e);
        StopsBeforeError(next, seen, rest);
        CutTail(tail, after.applied - run.applied);
        ReplayHead(run, seen, tail[..after.applied - run.applied]);
      } else if Effect(run, e).Success? {
        var next := Record(Effect(run, e).value, e);
        EffectIds(run, e);
        RecordAdvances(run, e);
        StopsBeforeError(next, seen + EventIds([e]), rest);
        CutTail(tail, after.applied - run.applied);
        ReplayHead(run, seen, tail[..after.applied - run.applied]);
      } else {
        NothingReplayed(run, seen);
        assert tail[..0] == [];
      }
    } else {
      NothingReplayed(run, seen);
    }
  }
}
