/** The control calls and the recovery of one run, as they load, change and save its state
    (application/agent_runs.py, agent_recovery.py, agent_lifecycle.py). Each method's contract
    is the write list of the state machine. */
module RunControl {
  import opened Wrappers
  import opened Runs
  import opened Recovery
  import opened Ledger
  import opened Machine
  import opened RunObjects
  import Safety
  import Exclusive

  datatype ControlError =
    | NotRunning | AlreadyStopped | NotPaused | NoSuchAttempt | NotUnknown | AlreadyResolved | StillResumable

  ghost predicate IsLatest(attempts: seq<Attempt>, latest: map<string, Attempt>) {
    forall id :: LatestOfRun(attempts, id) == if id in latest then Some(latest[id]) else None
  }

  /** The latest attempt of every call id, over all rounds. */
  method LatestOfAll(attempts: seq<Attempt>) returns (latest: map<string, Attempt>)
    ensures forall id :: LatestOfRun(attempts, id) == if id in latest then Some(latest[id]) else None
  {
    latest := map[];
    var i := 0;
    while i < |attempts|
      invariant 0 <= i <= |attempts|
      invariant IsLatest(attempts[..i], latest)
    {
      hide IsLatest;
      var a := attempts[i];
      LatestStep(attempts[..i], a, latest);
      assert attempts[..i + 1] == attempts[..i] + [a];
      if a.id !in latest || a.number > latest[a.id].number { latest := latest[a.id := a]; }
      i := i + 1;
    }
    assert attempts[..i] == attempts;
  }

  lemma LatestStep(attempts: seq<Attempt>, a: Attempt, latest: map<string, Attempt>)
    requires IsLatest(attempts, latest)
    ensures IsLatest(attempts + [a], if a.id !in latest || a.number > latest[a.id].number then latest[a.id := a] else latest)
  {
    hide LatestOfRun;
    var next := if a.id !in latest || a.number > latest[a.id].number then latest[a.id := a] else latest;
    forall id ensures LatestOfRun(attempts + [a], id) == if id in next then Some(next[id]) else None {
      LatestPush(attempts, a, id);
      assert LatestOfRun(attempts, id) == if id in latest then Some(latest[id]) else None;
    }
  }

  lemma LatestPush(attempts: seq<Attempt>, a: Attempt, id: string)
    ensures var before := LatestOfRun(attempts, id);
            LatestOfRun(attempts + [a], id)
            == if a.id == id && (before == None || a.number > before.value.number) then Some(a) else before
  {
    assert (attempts + [a])[..|attempts|] == attempts;
  }

  /** Whether no call of the run waits for the operator any more. */
  method IsResolved(attempts: seq<Attempt>) returns (resolved: bool)
    ensures resolved <==> AllResolved(attempts)
  {
    var latest := LatestOfAll(attempts);
    LatestIsComplete(attempts, latest);
    resolved := forall k :: k in latest ==> !NeedsOperator(latest[k]);
  }

  lemma LatestIsComplete(attempts: seq<Attempt>, latest: map<string, Attempt>)
    requires forall id :: LatestOfRun(attempts, id) == if id in latest then Some(latest[id]) else None
    ensures AllResolved(attempts) <==> forall id :: id in latest ==> !NeedsOperator(latest[id])
  {
    forall id | id in latest ensures exists a :: a in attempts && a.id == id {
      assert LatestOfRun(attempts, id).Some?;
    }
  }

  /** What a resolution writes once the attempt has been found. */
  lemma ResolveWritesAre(d: Durable, id: nat, call: string, number: nat, confirmed: Option<string>)
    ensures ResolveWrites(d, id, call, number, confirmed) != []
            <==> d.snap.status == Paused && FindAttempt(d.ledger, call, number).Some?
                 && FindAttempt(d.ledger, call, number).value.status == Unknown
                 && FindAttempt(d.ledger, call, number).value.resolution == None
    ensures ResolveWrites(d, id, call, number, confirmed) != [] ==>
              var a := ResolvedAttempt(FindAttempt(d.ledger, call, number).value, confirmed);
              var e := Stamp(BareEvent(ExecutionResolved), id, |d.journal| + 1);
              var pause := if d.snap.pause == None then None
                           else Some(d.snap.pause.value.(checkpoint := OperatorResolution,
                                                         resumable := AllResolved(PutAttempt(d.ledger, a))));
              ResolveWrites(d, id, call, number, confirmed)
              == [Resolve(a), Append(e), Save(Noted(d.snap, e).(pause := pause), Passed(d))]
  {
    hide AllResolved, PutAttempt, Passed;
  }

  lemma SuspendTailIs(d: Durable, run: Run, eligible: bool, checkpoint: Checkpoint, id: nat, cause: PauseCause)
    requires Inspect(d.snap, d.journal, Some(d.ledger)) == (run, eligible, checkpoint)
    ensures run.status != Running ==> Exclusive.SuspendTail(d, id, cause) == [Save(run, {})]
    ensures run.status == Running ==>
              var e := Stamp(BareEvent(RunPaused), id, |d.journal| + 1);
              Exclusive.SuspendTail(d, id, cause)
              == [Append(e), Save(Noted(run, e).(status := Paused, stop := None,
                                                 pause := Some(Runs.Pause.Pause(cause, checkpoint, eligible))),
                                  Range(run.applied, |d.journal|))]
  {
    hide Inspect;
  }

  class RunManager {
    const registers: Registers

    constructor (registers: Registers)
      ensures this.registers == registers
    {
      this.registers := registers;
    }

    /** Appends an event and notes it in the state at hand. */
    method NoteEvent(state: RunState, e: Event, id: nat) returns (stamped: Event)
      modifies registers`journal, state
      ensures stamped == Stamp(e, id, |old(registers.journal)| + 1)
      ensures registers.Value() == Apply(old(registers.Value()), Append(stamped))
      ensures state.Value() == Noted(old(state.Value()), stamped)
    {
      stamped := registers.AppendEvent(e, id);
      state.Note(stamped);
    }

    /** pause: asks the running execution to stop at its next checkpoint. */
    method Pause() returns (error: Option<ControlError>)
      modifies registers
      ensures var d := old(registers.Value());
              && registers.Value() == (if d.snap.status == Running
                                       then ApplyAll(d, [Save(d.snap.(pauseRequest := true), {})]) else d)
              && error == if d.snap.status == Running || d.snap.status == Paused then None else Some(NotRunning)
    {
      var state := new RunState(registers.snap);
      if state.status == Paused { return None; }
      if state.status != Running { return Some(NotRunning); }
      state.pauseRequest := true;
      ApplyOne(registers.Value(), Save(state.Value(), {}));
      registers.SaveState(state.Value(), {});
      return None;
    }

    method Cancel(id: nat) returns (error: Option<ControlError>)
      modifies registers
      ensures var d := old(registers.Value());
              && registers.Value() == ApplyAll(d, CancelWrites(d, id))
              && (error == if d.snap.status == Done || d.snap.status == Failed then Some(AlreadyStopped) else None)
              && (error == None <==> registers.snap.status == Canceled)
    {
      hide Passed, Noted, Stamp;
      ghost var d := registers.Value();
      var state := new RunState(registers.snap);
      if state.status == Canceled { return None; }
      if state.status == Done || state.status == Failed { return Some(AlreadyStopped); }
      var e := NoteEvent(state, StopEvent(CanceledText), id);
      state.status, state.stop, state.pause := Canceled, None, None;
      state.pendingCalls, state.pendingApprovals := [], [];
      assert state.Value() == CanceledBy(d.snap, e);
      registers.SaveState(state.Value(), Passed(d));
      ApplyTwo(d, Append(e), Save(state.Value(), Passed(d)));
      return None;
    }

    /** _mark_failed: a running run is stopped as failed. */
    method MarkFailed(id: nat)
      modifies registers
      ensures var d := old(registers.Value()); registers.Value() == ApplyAll(d, MarkFailedWrites(d, id))
    {
      ghost var d := registers.Value();
      var state := new RunState(registers.snap);
      if state.status != Running { return; }
      var e := NoteEvent(state, StopEvent(FailedText), id);
      state.status, state.stop := Failed, None;
      state.pendingCalls, state.pendingApprovals := [], [];
      registers.SaveState(state.Value(), Passed(d));
      ApplyTwo(d, Append(e), Save(state.Value(), Passed(d)));
      assert state.Value() == FailedBy(d.snap, e);
    }

    method GetAttempt(call: string, number: nat) returns (found: Option<Attempt>)
      ensures found == FindAttempt(registers.ledger, call, number)
    {
      var rows := registers.ledger;
      while rows != []
        invariant FindAttempt(rows, call, number) == FindAttempt(registers.ledger, call, number)
        decreases |rows|
      {
        if rows[0].id == call && rows[0].number == number { return Some(rows[0]); }
        rows := rows[1..];
      }
      return None;
    }

    /** resolve_tool_execution: an operator confirms an unknown execution or allows a retry. */
    method ResolveToolExecution(call: string, number: nat, confirmed: Option<string>, id: nat)
      returns (error: Option<ControlError>)
      modifies registers
      ensures var d := old(registers.Value());
              && registers.Value() == ApplyAll(d, ResolveWrites(d, id, call, number, confirmed))
              && (error == None <==> ResolveWrites(d, id, call, number, confirmed) != [])
      ensures var d := old(registers.Value());
              var found := FindAttempt(d.ledger, call, number);
              error == if d.snap.status != Paused then Some(NotPaused)
                       else if found == None then Some(NoSuchAttempt)
                       else if found.value.status != Unknown then Some(NotUnknown)
                       else if found.value.resolution.Some? then Some(AlreadyResolved)
                       else None
    {
      hide ResolveWrites, AllResolved, FindAttempt, LatestOfRun, NeedsOperator, PutAttempt, Passed, ResolvedAttempt;
      ghost var d := registers.Value();
      ResolveWritesAre(d, id, call, number, confirmed);
      var state := new RunState(registers.snap);
      if state.status != Paused { return Some(NotPaused); }
      var found := GetAttempt(call, number);
      if found == None { return Some(NoSuchAttempt); }
      if found.value.status != Unknown { return Some(NotUnknown); }
      if found.value.resolution.Some? { return Some(AlreadyResolved); }
      NoteResolution(state, ResolvedAttempt(found.value, confirmed), id);
      return None;
    }

    /** Stores the resolved attempt, judges the pause anew, and notes both. */
    method NoteResolution(state: RunState, a: Attempt, id: nat)
      modifies registers, state
      ensures var d, run := old(registers.Value()), old(state.Value());
              var e := Stamp(BareEvent(ExecutionResolved), id, |d.journal| + 1);
              var pause := if run.pause == None then None
                           else Some(run.pause.value.(checkpoint := OperatorResolution,
                                                      resumable := AllResolved(PutAttempt(d.ledger, a))));
              registers.Value() == ApplyAll(d, [Resolve(a), Append(e), Save(Noted(run, e).(pause := pause), Passed(d))])
    {
      hide AllResolved, PutAttempt, Passed, Stamp, ApplyAll, Range;
      ghost var d, run := registers.Value(), state.Value();
      registers.SaveResolution(a);
      var eligible := IsResolved(registers.ledger);
      if state.pause.Some? {
        state.pause := Some(state.pause.value.(checkpoint := OperatorResolution, resumable := eligible));
      }
      ghost var pause := state.pause;
      var e := NoteEvent(state, BareEvent(ExecutionResolved), id);
      registers.SaveState(state.Value(), Passed(d));
      assert state.Value() == Noted(run, e).(pause := pause);
      ApplyThree(d, Resolve(a), Append(e), Save(state.Value(), Passed(d)));
    }

    /** _abandon_unrecoverable_tool_executions. */
    method AbandonExecutions()
      modifies registers
      ensures registers.Value() == ApplyAll(old(registers.Value()), AbandonPuts(old(registers.ledger), old(registers.ledger)))
    {
      var attempts := registers.ledger;
      var latest := LatestOfAll(attempts);
      var i := 0;
      assert attempts[0..] == attempts;
      while i < |attempts|
        invariant 0 <= i <= |attempts|
        invariant ApplyAll(registers.Value(), AbandonPuts(attempts, attempts[i..]))
                  == ApplyAll(old(registers.Value()), AbandonPuts(attempts, attempts))
      {
        var a := attempts[i];
        assert attempts[i..][1..] == attempts[i + 1..];
        if a.id in latest && latest[a.id] == a && NeedsOperator(a) {
          var given := a.(resolution := Some(AbandonAndRetryRun));
          assert AbandonPuts(attempts, attempts[i..]) == [Put(given)] + AbandonPuts(attempts, attempts[i + 1..]);
          assert AbandonPuts(attempts, attempts[i..])[1..] == AbandonPuts(attempts, attempts[i + 1..]);
          registers.SaveAttempt(given);
        }
        i := i + 1;
      }
    }

    /** The part of retry that settles a pause no resume can continue. */
    method AbandonPause(id: nat) returns (error: Option<ControlError>)
      modifies registers
      ensures var d := old(registers.Value());
              && registers.Value() == ApplyAll(d, AbandonWrites(d, id))
              && (error == None <==> AbandonWrites(d, id) != [])
              && error == if d.snap.status != Paused then Some(NotPaused)
                          else if CanResume(d.snap) then Some(StillResumable) else None
    {
      ghost var d := registers.Value();
      var state := new RunState(registers.snap);
      if state.status != Paused { return Some(NotPaused); }
      if CanResume(registers.snap) { return Some(StillResumable); }
      AbandonExecutions();
      ghost var first := AbandonPuts(d.ledger, d.ledger);
      Exclusive.AbandonPutsTouch(d.ledger, d.ledger);
      Safety.LedgerWritesKeepRun(d, first);
      ghost var mid := registers.Value();
      var e := NoteEvent(state, BareEvent(ExecutionResolved), id);
      registers.SaveState(state.Value(), Passed(d));
      ApplyTwo(mid, Append(e), Save(state.Value(), Passed(d)));
      ApplyConcat(d, first, [Append(e), Save(state.Value(), Passed(d))]);
      return None;
    }

    /** _mark_interrupted; startup recovery and shutdown do the same for each running run. */
    method MarkInterrupted(cause: PauseCause, id: nat)
      modifies registers
      ensures var d := old(registers.Value()); registers.Value() == ApplyAll(d, SuspendWrites(d, id, cause))
    {
      hide Inspect, Restore, SuspendWrites, Exclusive.SuspendTail, UnknownPuts;
      ghost var d := registers.Value();
      var state := new RunState(registers.snap);
      if state.status != Running {
        NothingToSuspend(d, id, cause);
        return;
      }
      var attempts := registers.MarkStartedUnknown();
      ghost var first := UnknownPuts(d.ledger);
      Exclusive.UnknownPutsTouch(d.ledger);
      Safety.LedgerWritesKeepRun(d, first);
      Exclusive.SuspendSplit(d, id, cause);
      ghost var mid := registers.Value();
      var eligible, checkpoint := state.InspectCheckpoint(registers.journal, Some(attempts));
      ghost var run := state.Value();
      SuspendTailIs(mid, run, eligible, checkpoint, id, cause);
      ApplyConcat(d, first, Exclusive.SuspendTail(mid, id, cause));
      if state.status != Running {
        registers.SaveState(state.Value(), {});
        ApplyOne(mid, Save(run, {}));
        return;
      }
      var e := NoteEvent(state, BareEvent(RunPaused), id);
      state.status, state.stop := Paused, None;
      state.pause := Some(Runs.Pause.Pause(cause, checkpoint, eligible));
      registers.SaveState(state.Value(), Range(run.applied, |mid.journal|));
      ApplyTwo(mid, Append(e), Save(state.Value(), Range(run.applied, |mid.journal|)));
    }
  }

  lemma NothingToSuspend(d: Durable, id: nat, cause: PauseCause)
    requires d.snap.status != Running
    ensures SuspendWrites(d, id, cause) == []
  {
  }
}
