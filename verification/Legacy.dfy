/** Snapshots from before the watermark (application/agent_recovery.py): their steps are aligned
    with the journal, and what lies behind the last of them is replayed. */
module Legacy {
  import opened Wrappers
  import opened Runs
  import opened Recovery
  import opened Machine
  import opened Agreement
  import opened Replaying
  import opened Exclusive
  import opened Untorn
  import opened RoundBudget

  datatype AlignError = PrunedTrace | UnalignedTrace | GapInTail

  /** _trace_matches_step. */
  predicate Matches(e: Event, s: Step) {
    if s.eventId.Some? then e.id == s.eventId
    else if s.kind == ChatStep then e.kind == ChatCompleted && e.response == s.response
    else e.kind == (if s.kind == ToolStep then ToolCompleted else ToolFailed) && e.call == s.call
  }

  predicate HasChat(events: seq<Event>) {
    exists e :: e in events && e.kind == ChatCompleted
  }

  /** The steps that are aligned, in order. */
  function ProgressSteps(steps: seq<Step>): seq<Step> {
    if steps == [] then [] else (if IsProgress(steps[0]) then [steps[0]] else []) + ProgressSteps(steps[1..])
  }

  /** The first event from `from` on that matches the step. */
  function FirstMatch(events: seq<Event>, s: Step, from: nat): (found: Option<nat>)
    requires from <= |events|
    ensures found.Some? ==> from <= found.value < |events| && Matches(events[found.value], s)
    ensures forall i :: from <= i < |events| && Matches(events[i], s) ==> found.Some? && found.value <= i
    decreases |events| - from
  {
    if from == |events| then None
    else if Matches(events[from], s) then Some(from)
    else FirstMatch(events, s, from + 1)
  }

  /** Each step takes the first match behind the one before; a journal without any response may
      lack matches. The result is where the tail starts. */
  function Align(p: seq<Step>, events: seq<Event>, cursor: nat): (end: Option<nat>)
    requires cursor <= |events|
    ensures end.Some? ==> cursor <= end.value <= |events|
    decreases |p|
  {
    if p == [] then Some(cursor)
    else match FirstMatch(events, p[0], cursor)
      case Some(i) => Align(p[1..], events, i + 1)
      case None => if HasChat(events) then None else Align(p[1..], events, cursor)
  }

  /** _require_contiguous_trace, where nothing may be known of the event before. */
  predicate ContiguousAfter(events: seq<Event>, previous: Option<nat>)
    decreases |events|
  {
    if previous.Some? then Contiguous(events, previous.value)
    else events == [] || ContiguousAfter(events[1..], events[0].sequence)
  }

  predicate Pruned(steps: seq<Step>, events: seq<Event>) {
    && events != [] && events[0].sequence.Some? && events[0].sequence.value > 1
    && exists s :: s in steps && IsProgress(s) && s.eventId == None
  }

  function Before(events: seq<Event>, cursor: nat): Option<nat>
    requires cursor <= |events|
  {
    if cursor == 0 then Some(0) else events[cursor - 1].sequence
  }

  /** _checkpoint_trace_tail for a snapshot without a watermark and without sequenced events. */
  function LegacyTail(steps: seq<Step>, events: seq<Event>): Result<seq<Event>, AlignError> {
    if Pruned(steps, events) then Failure(PrunedTrace)
    else match Align(ProgressSteps(steps), events, 0)
      case None => Failure(UnalignedTrace)
      case Some(c) => if ContiguousAfter(events[c..], Before(events, c)) then Success(events[c..]) else Failure(GapInTail)
  }

  // ----------------------------------------------------------------------- the loops

  /** The watermark that the trace of the snapshot itself gives. */
  method GreatestSequence(trace: seq<Event>) returns (watermark: Option<nat>)
    ensures watermark == None <==> forall e :: e in trace ==> e.sequence == None
    ensures watermark.Some? ==> exists e :: e in trace && e.sequence == watermark
    ensures forall e :: e in trace && e.sequence.Some? ==> watermark.Some? && e.sequence.value <= watermark.value
  {
    watermark := None;
    var i := 0;
    while i < |trace|
      invariant 0 <= i <= |trace|
      invariant watermark == None <==> forall k :: 0 <= k < i ==> trace[k].sequence == None
      invariant watermark.Some? ==> exists e :: e in trace && e.sequence == watermark
      invariant forall k :: 0 <= k < i && trace[k].sequence.Some? ==>
                              watermark.Some? && trace[k].sequence.value <= watermark.value
    {
      var n := trace[i].sequence;
      if n.Some? && (watermark == None || n.value > watermark.value) {
        watermark := n;
        assert trace[i] in trace;
      }
      i := i + 1;
    }
  }

  method NextMatch(events: seq<Event>, s: Step, from: nat) returns (found: Option<nat>)
    requires from <= |events|
    ensures found == FirstMatch(events, s, from)
  {
    var j := from;
    while j < |events|
      invariant from <= j <= |events|
      invariant FirstMatch(events, s, j) == FirstMatch(events, s, from)
    {
      if Matches(events[j], s) { return Some(j); }
      j := j + 1;
    }
    return None;
  }

  method AlignSteps(steps: seq<Step>, events: seq<Event>) returns (cursor: Option<nat>)
    ensures cursor == Align(ProgressSteps(steps), events, 0)
  {
    hide Align, Matches, FirstMatch, ProgressSteps;
    var at: nat := 0;
    var i := 0;
    assert steps[0..] == steps;
    while i < |steps|
      invariant 0 <= i <= |steps| && at <= |events|
      invariant Align(ProgressSteps(steps[i..]), events, at) == Align(ProgressSteps(steps), events, 0)
    {
      var step := steps[i];
      ProgressStep(steps, i);
      if IsProgress(step) {
        AlignStep(step, ProgressSteps(steps[i + 1..]), events, at);
        var found := NextMatch(events, step, at);
        if found.Some? {
          at := found.value + 1;
        } else if exists e: Event :: e in events && e.kind == ChatCompleted {
          return None;
        }
      }
      i := i + 1;
    }
    assert steps[i..] == [];
    AlignNothing(events, at);
    return Some(at);
  }

  lemma ProgressStep(steps: seq<Step>, i: nat)
    requires i < |steps|
    ensures var rest := ProgressSteps(steps[i + 1..]);
            ProgressSteps(steps[i..]) == if IsProgress(steps[i]) then [steps[i]] + rest else rest
  {
    assert steps[i..][1..] == steps[i + 1..];
  }

  lemma AlignStep(s: Step, rest: seq<Step>, events: seq<Event>, at: nat)
    requires at <= |events|
    ensures Align([s] + rest, events, at)
            == match FirstMatch(events, s, at)
               case Some(i) => Align(rest, events, i + 1)
               case None => if HasChat(events) then None else Align(rest, events, at)
  {
    assert ([s] + rest)[1..] == rest;
  }

  lemma AlignNothing(events: seq<Event>, at: nat)
    requires at <= |events|
    ensures ProgressSteps([]) == [] && Align([], events, at) == Some(at)
  {
  }

  method CheckpointTail(steps: seq<Step>, events: seq<Event>) returns (tail: Result<seq<Event>, AlignError>)
    ensures tail == LegacyTail(steps, events)
  {
    if events != [] && events[0].sequence.Some? && events[0].sequence.value > 1
       && exists s: Step :: s in steps && s.eventId == None && IsProgress(s) {
      return Failure(PrunedTrace);
    }
    var cursor := AlignSteps(steps, events);
    if cursor == None { return Failure(UnalignedTrace); }
    var after := events[cursor.value..];
    var previous := if cursor.value == 0 then Some(0) else events[cursor.value - 1].sequence;
    ghost var whole := ContiguousAfter(after, previous);
    var i := 0;
    assert after[0..] == after;
    while i < |after|
      invariant 0 <= i <= |after|
      invariant ContiguousAfter(after[i..], previous) == whole
    {
      assert after[i..][1..] == after[i + 1..];
      if after[i].sequence.Some? {
        if previous.Some? && after[i].sequence.value != previous.value + 1 { return Failure(GapInTail); }
        previous := after[i].sequence;
      }
      i := i + 1;
    }
    assert after[i..] == [];
    return Success(after);
  }

  /** A tail is only accepted from a journal kept from its first event on, unless every step names
      its event, and behind all steps without a gap in the numbers. */
  lemma LegacyTailMeans(steps: seq<Step>, events: seq<Event>)
    requires LegacyTail(steps, events).Success? && forall i :: 0 <= i < |events| ==> events[i].sequence.Some?
    ensures events != [] && events[0].sequence.value > 1 ==> forall s :: s in steps && IsProgress(s) ==> s.eventId.Some?
    ensures exists c :: 0 <= c <= |events| && LegacyTail(steps, events).value == events[c..]
                        && Align(ProgressSteps(steps), events, 0) == Some(c)
                        && forall i :: c <= i < |events| ==> events[i].sequence.value == Before(events, c).value + 1 + i - c
  {
    hide Align, ProgressSteps, Contiguous;
    var c := Align(ProgressSteps(steps), events, 0).value;
    GapIsRejected(events[c..], Before(events, c).value);
    forall i | c <= i < |events| ensures events[i].sequence.value == Before(events, c).value + 1 + i - c {
      assert events[i] == events[c..][i - c];
    }
  }

  // ------------------------------------------------------- what alignment amounts to

  /** The steps match events at these positions, from `from` on and in order. */
  ghost predicate Embeds(p: seq<Step>, events: seq<Event>, at: seq<nat>, from: nat) {
    && |at| == |p|
    && (forall i :: 0 <= i < |at| ==> from <= at[i] < |events| && Matches(events[at[i]], p[i]))
    && (forall i, j :: 0 <= i < j < |at| ==> at[i] < at[j])
  }

  function End(at: seq<nat>, from: nat): nat {
    if at == [] then from else at[|at| - 1] + 1
  }

  /** Taking the first match each time never misses: the steps are aligned exactly when they match
      some events in order, or the journal holds no response at all; no way of matching them all
      ends earlier, and against a journal with a response one ends there. */
  lemma AlignsExactly(p: seq<Step>, events: seq<Event>)
    ensures Align(p, events, 0).Some? <==> !HasChat(events) || exists at :: Embeds(p, events, at, 0)
    ensures forall at :: Embeds(p, events, at, 0) ==> Align(p, events, 0).value <= End(at, 0)
    ensures HasChat(events) && Align(p, events, 0).Some? ==>
              exists at :: Embeds(p, events, at, 0) && End(at, 0) == Align(p, events, 0).value
  {
    hide Embeds, Align, HasChat;
    if !HasChat(events) {
      AlignsWithoutChat(p, events, 0);
    } else if Align(p, events, 0).Some? {
      var at := AlignFinds(p, events, 0);
    }
    forall at | Embeds(p, events, at, 0) ensures Align(p, events, 0).Some? && Align(p, events, 0).value <= End(at, 0) {
      var best := AlignIsLeast(p, events, at, 0);
    }
  }

  lemma {:induction false} AlignsWithoutChat(p: seq<Step>, events: seq<Event>, from: nat)
    requires !HasChat(events) && from <= |events|
    ensures Align(p, events, from).Some?
    decreases |p|
  {
    hide HasChat, FirstMatch;
    if p != [] {
      var found := FirstMatch(events, p[0], from);
      AlignsWithoutChat(p[1..], events, if found.Some? then found.value + 1 else from);
    }
  }

  lemma {:induction false} AlignFinds(p: seq<Step>, events: seq<Event>, from: nat) returns (at: seq<nat>)
    requires HasChat(events) && from <= |events| && Align(p, events, from).Some?
    ensures Embeds(p, events, at, from) && End(at, from) == Align(p, events, from).value
    decreases |p|
  {
    hide Matches, HasChat, Embeds;
    if p == [] {
      at := [];
      EmbedsNothing(events, from);
    } else {
      var i := FirstMatch(events, p[0], from).value;
      var rest := AlignFinds(p[1..], events, i + 1);
      at := [i] + rest;
      EmbedsMore(p, events, i, rest, from);
    }
  }

  lemma {:induction false} AlignIsLeast(p: seq<Step>, events: seq<Event>, at: seq<nat>, from: nat) returns (best: seq<nat>)
    requires from <= |events| && Embeds(p, events, at, from)
    ensures Align(p, events, from).Some? && Align(p, events, from).value <= End(at, from)
    ensures Embeds(p, events, best, from) && End(best, from) == Align(p, events, from).value
    decreases |p|
  {
    hide Matches, HasChat, Embeds, Align, FirstMatch;
    if p == [] {
      best := [];
      EmbedsNothing(events, from);
      AlignNothing(events, from);
    } else {
      var i := EmbedsLater(p, events, at, from);
      var rest := AlignIsLeast(p[1..], events, at[1..], i + 1);
      best := [i] + rest;
      EmbedsMore(p, events, i, rest, from);
      assert p == [p[0]] + p[1..];
      AlignStep(p[0], p[1..], events, from);
    }
  }

  lemma EmbedsNothing(events: seq<Event>, from: nat)
    ensures Embeds([], events, [], from)
    ensures forall at :: Embeds([], events, at, from) ==> at == []
  {
  }

  lemma EmbedsMore(p: seq<Step>, events: seq<Event>, i: nat, rest: seq<nat>, from: nat)
    requires p != [] && from <= i < |events| && Matches(events[i], p[0]) && Embeds(p[1..], events, rest, i + 1)
    ensures Embeds(p, events, [i] + rest, from) && End([i] + rest, from) == End(rest, i + 1)
  {
    hide Matches;
  }

  /** The first match of the first step leaves room for the others. */
  lemma EmbedsLater(p: seq<Step>, events: seq<Event>, at: seq<nat>, from: nat) returns (i: nat)
    requires p != [] && from <= |events| && Embeds(p, events, at, from)
    ensures FirstMatch(events, p[0], from) == Some(i) && from <= i < |events| && Matches(events[i], p[0])
    ensures at != [] && Embeds(p[1..], events, at[1..], i + 1) && End(at[1..], i + 1) <= End(at, from)
  {
    hide Matches;
    assert Matches(events[at[0]], p[0]);
    i := FirstMatch(events, p[0], from).value;
    assert forall j :: 0 <= j < |at| - 1 ==> at[1..][j] == at[j + 1] && p[1..][j] == p[j + 1];
  }

  // --------------------------------------------------------- the journal of the same run

  /** The positions of progress before `n` that were not skipped. */
  function Positions(journal: seq<Event>, n: nat, skipped: set<nat>): (at: seq<nat>)
    requires n <= |journal|
    ensures forall i :: 0 <= i < |at| ==> at[i] < n && IsProgressEvent(journal[at[i]])
    ensures forall i, j :: 0 <= i < j < |at| ==> at[i] < at[j]
  {
    if n == 0 then []
    else if IsProgressEvent(journal[n - 1]) && n - 1 !in skipped then Positions(journal, n - 1, skipped) + [n - 1]
    else Positions(journal, n - 1, skipped)
  }

  lemma {:induction false} KeptAt(journal: seq<Event>, n: nat, skipped: set<nat>)
    requires n <= |journal|
    ensures var at, kept := Positions(journal, n, skipped), Kept(journal, 0, n, skipped);
            |kept| == |at| && forall i :: 0 <= i < |at| ==> Some(kept[i]) == ProgressOf(journal[at[i]])
    decreases n
  {
    hide ProgressOf, Positions, Kept;
    if n > 0 {
      KeptAt(journal, n - 1, skipped);
      OneMore(journal, n, skipped);
    } else {
      KeptNone(journal, 0, skipped);
    }
  }

  lemma OneMore(journal: seq<Event>, n: nat, skipped: set<nat>)
    requires 0 < n <= |journal|
    ensures var kept := IsProgressEvent(journal[n - 1]) && n - 1 !in skipped;
            && Positions(journal, n, skipped) == Positions(journal, n - 1, skipped) + (if kept then [n - 1] else [])
            && Kept(journal, 0, n, skipped)
               == Kept(journal, 0, n - 1, skipped) + (if kept then [ProgressOf(journal[n - 1]).value] else [])
  {
    hide ProgressOf;
  }

  lemma KeptNone(journal: seq<Event>, n: nat, skipped: set<nat>)
    requires n <= |journal|
    ensures Kept(journal, n, n, skipped) == [] && Positions(journal, 0, skipped) == []
  {
  }

  /** Only progress matches a recorded step. */
  lemma MatchIsProgress(e: Event, recorded: Event, s: Step)
    requires ProgressOf(recorded) == Some(s)
    ensures Matches(recorded, s)
    ensures !IsProgressEvent(e) ==> !Matches(e, s)
  {
  }

  /** Recorded steps match the events they come from, and nothing but progress. */
  lemma RecordedEmbeds(journal: seq<Event>, n: nat, skipped: set<nat>)
    requires n <= |journal|
    ensures var p, at := Kept(journal, 0, n, skipped), Positions(journal, n, skipped);
            && Embeds(p, journal, at, 0) && End(at, 0) <= n
            && forall s, e: Event :: s in p && Matches(e, s) ==> IsProgressEvent(e)
  {
    hide ProgressOf, Positions, Kept, Matches, IsProgressEvent;
    var p, at := Kept(journal, 0, n, skipped), Positions(journal, n, skipped);
    KeptAt(journal, n, skipped);
    forall i | 0 <= i < |p| ensures Matches(journal[at[i]], p[i]) {
      MatchIsProgress(journal[at[i]], journal[at[i]], p[i]);
    }
    forall s, e: Event | s in p && Matches(e, s) ensures IsProgressEvent(e) {
      var i :| 0 <= i < |p| && p[i] == s;
      MatchIsProgress(e, journal[at[i]], s);
    }
  }

  /** Steps that match progress in order are no more than the progress they reach over. */
  lemma {:induction false} EmbeddingCounts(p: seq<Step>, journal: seq<Event>, at: seq<nat>)
    requires Embeds(p, journal, at, 0) && forall i :: 0 <= i < |at| ==> IsProgressEvent(journal[at[i]])
    ensures End(at, 0) <= |journal| && |p| <= |Kept(journal, 0, End(at, 0), {})|
    decreases |p|
  {
    hide Matches, IsProgressEvent, Kept;
    if p != [] {
      var front, last := at[..|at| - 1], at[|at| - 1];
      EmbeddingCounts(p[..|p| - 1], journal, front);
      OneMore(journal, last + 1, {});
      KeptSplit(journal, End(front, 0), last, {});
    }
  }

  // -------------------------------------------------------------------- legacy snapshots

  function Unstamped(steps: seq<Step>): (bare: seq<Step>)
    ensures |bare| == |steps| && forall i :: 0 <= i < |steps| ==> bare[i] == steps[i].(eventId := None)
  {
    seq(|steps|, i requires 0 <= i < |steps| => steps[i].(eventId := None))
  }

  /** A snapshot as it was stored before watermarks, event ids and its own trace. */
  function Stripped(run: Run): Run {
    run.(steps := Unstamped(run.steps), trace := [], applied := 0)
  }

  /** restore_agent_run_checkpoint_data over a legacy snapshot; None when its steps cannot be aligned. */
  function LegacyRestore(run: Run, events: seq<Event>): Option<(Run, Option<RecoveryError>)> {
    match LegacyTail(run.steps, events)
    case Failure(_) => None
    case Success(tail) => Some(Replay(run, StepIds(run.steps), tail))
  }

  lemma {:induction false} UnstampedProgress(steps: seq<Step>)
    ensures ProgressSteps(Unstamped(steps)) == Progress(steps)
    decreases |steps|
  {
    if steps != [] {
      var front, last := steps[..|steps| - 1], steps[|steps| - 1];
      UnstampedProgress(front);
      assert Unstamped(steps) == Unstamped(front) + [last.(eventId := None)];
      ProgressStepsPush(Unstamped(front), last.(eventId := None));
    }
  }

  lemma {:induction false} ProgressStepsPush(steps: seq<Step>, s: Step)
    ensures ProgressSteps(steps + [s]) == ProgressSteps(steps) + (if IsProgress(s) then [s] else [])
    decreases |steps|
  {
    hide ProgressSteps, IsProgress;
    NoProgressSteps();
    if steps == [] {
      assert steps + [s] == [s] && [s][1..] == [];
      ProgressCons([s]);
    } else {
      assert (steps + [s])[1..] == steps[1..] + [s];
      ProgressCons(steps);
      ProgressCons(steps + [s]);
      ProgressStepsPush(steps[1..], s);
    }
  }

  lemma ProgressCons(steps: seq<Step>)
    requires steps != []
    ensures ProgressSteps(steps) == (if IsProgress(steps[0]) then [steps[0]] else []) + ProgressSteps(steps[1..])
  {
  }

  lemma NoProgressSteps()
    ensures ProgressSteps([]) == []
  {
  }

  lemma {:induction false} ProgressIgnoresIds(steps: seq<Step>)
    ensures Progress(Unstamped(steps)) == Progress(steps)
    decreases |steps|
  {
    if steps != [] {
      var front, last := steps[..|steps| - 1], steps[|steps| - 1];
      ProgressIgnoresIds(front);
      assert Unstamped(steps) == Unstamped(front) + [last.(eventId := None)];
      ProgressPush(front, last);
      ProgressPush(Unstamped(front), last.(eventId := None));
      assert steps == front + [last];
    }
  }

  /** A legacy snapshot of the journal's own run is never refused, and the tail starts no later than
      its watermark would say. */
  lemma LegacyTailIs(s: Run, journal: seq<Event>, skipped: set<nat>, request: Request) returns (c: nat)
    requires JournalOk(journal, request.maxToolRounds) && Faithful(s, journal, skipped, request)
    ensures c <= s.applied <= |journal| && Align(ProgressSteps(Unstamped(s.steps)), journal, 0) == Some(c)
    ensures LegacyTail(Unstamped(s.steps), journal) == Success(journal[c..])
  {
    hide Positions, Align, Faithful, ProgressSteps, Contiguous, Kept, EventOk, IsProgressEvent, IsProgress, Embeds;
    FaithfulView(s, journal, skipped, request);
    RecordedEmbeds(journal, s.applied, skipped);
    UnstampedProgress(s.steps);
    var best := AlignIsLeast(Progress(s.steps), journal, Positions(journal, s.applied, skipped), 0);
    c := End(best, 0);
    GapIsRejected(journal[c..], c);
  }

  lemma FaithfulView(s: Run, journal: seq<Event>, skipped: set<nat>, request: Request)
    requires Faithful(s, journal, skipped, request)
    ensures s.request == request && s.applied <= |journal| && Progress(s.steps) == Kept(journal, 0, s.applied, skipped)
  {
  }

  /** All progress up to the watermark lies before the end of the last aligned step. */
  ghost predicate CaughtUp(s: Run, journal: seq<Event>) {
    var c := Align(ProgressSteps(Unstamped(s.steps)), journal, 0);
    c.Some? && s.applied <= |journal| && forall i :: c.value <= i < s.applied ==> !IsProgressEvent(journal[i])
  }

  /** A snapshot that missed no progress is caught up: its steps are too many to fit into less. */
  lemma MissedNothing(s: Run, journal: seq<Event>, skipped: set<nat>, request: Request)
    requires JournalOk(journal, request.maxToolRounds) && Faithful(s, journal, skipped, request) && SkipClean(journal, skipped)
    ensures CaughtUp(s, journal)
  {
    hide Positions, Align, Faithful, ProgressSteps, Kept, Progress, JournalOk, IsProgressEvent, Matches;
    var p := Progress(s.steps);
    var c := LegacyTailIs(s, journal, skipped, request);
    FaithfulView(s, journal, skipped, request);
    RecordedEmbeds(journal, s.applied, skipped);
    UnstampedProgress(s.steps);
    var best := AlignIsLeast(p, journal, Positions(journal, s.applied, skipped), 0);
    forall i | 0 <= i < |best| ensures IsProgressEvent(journal[best[i]]) {
      assert p[i] in p;
    }
    EmbeddingCounts(p, journal, best);
    KeptFrame(journal, journal, 0, s.applied, skipped, {});
    KeptSplit(journal, c, s.applied, {});
    KeptNothing(journal, c, s.applied);
  }

  /** Nothing is kept of a stretch exactly when it holds no progress. */
  lemma {:induction false} KeptNothing(journal: seq<Event>, from: nat, end: nat)
    requires from <= end <= |journal|
    ensures Kept(journal, from, end, {}) == [] <==> forall i :: from <= i < end ==> !IsProgressEvent(journal[i])
    decreases end
  {
    hide ProgressOf;
    if end > from { KeptNothing(journal, from, end - 1); }
  }

  // ------------------------------------------------------------------- restoring them

  /** Replay never looks at the watermark it moves. */
  lemma {:induction false} ReplayIgnoresWatermark(run: Run, n: nat, seen: set<nat>, tail: seq<Event>)
    ensures var (a, b) := (Replay(run, seen, tail), Replay(run.(applied := n), seen, tail));
            a.1 == b.1 && a.0 == b.0.(applied := a.0.applied)
    decreases |tail|
  {
    if tail != [] {
      var e := tail[0];
      EffectIgnoresWatermark(run, n, e);
      if e.id.Some? && e.id.value in seen {
        ReplayIgnoresWatermark(Advance(run, e), Advance(run.(applied := n), e).applied, seen, tail[1..]);
      } else if Effect(run, e).Success? {
        var next, other := Record(Effect(run, e).value, e), Record(Effect(run.(applied := n), e).value, e);
        assert other == next.(applied := other.applied);
        ReplayIgnoresWatermark(next, other.applied, seen + EventIds([e]), tail[1..]);
      }
    }
  }

  lemma EffectIgnoresWatermark(run: Run, n: nat, e: Event)
    ensures var (a, b) := (Effect(run, e), Effect(run.(applied := n), e));
            if a.Success? then b == Success(a.value.(applied := n)) && a.value.applied == run.applied else b == a
  {
    hide Round;
  }

  lemma {:induction false} ResponseCompose(journal: seq<Event>, from: nat, mid: nat, end: nat, before: Option<Response>)
    requires from <= mid <= end <= |journal|
    ensures ResponseFrom(journal, from, end, before) == ResponseFrom(journal, mid, end, ResponseFrom(journal, from, mid, before))
    decreases end
  {
    if end > mid { ResponseCompose(journal, from, mid, end - 1, before); }
  }

  lemma {:induction false} ResponseQuiet(journal: seq<Event>, from: nat, end: nat, before: Option<Response>, max: nat)
    requires from <= end <= |journal| && JournalOk(journal, max)
    requires forall i :: from <= i < end ==> !IsProgressEvent(journal[i])
    ensures ResponseFrom(journal, from, end, before) == before
    decreases end
  {
    if end > from {
      ResponseQuiet(journal, from, end - 1, before, max);
      assert EventOk(journal[end - 1], max);
    }
  }

  /** What is built from the cursor on and from the watermark on is the same exactly when nothing
      is kept between them. */
  lemma QuietStart(journal: seq<Event>, c: nat, n: nat, response: Option<Response>, remaining: int, max: nat)
    requires c <= n <= |journal| && JournalOk(journal, max)
    ensures var quiet := forall i :: c <= i < n ==> !IsProgressEvent(journal[i]);
            && (Kept(journal, c, |journal|, {}) == Kept(journal, n, |journal|, {}) <==> quiet)
            && (quiet ==> ResponseFrom(journal, c, |journal|, response) == ResponseFrom(journal, n, |journal|, response))
            && (quiet ==> RemainingFrom(journal, c, |journal|, remaining) == RemainingFrom(journal, n, |journal|, remaining))
  {
    hide Kept, ResponseFrom, RemainingFrom, IsProgressEvent, JournalOk;
    KeptSplit(journal, c, n, {});
    KeptSplit(journal, c, |journal|, {});
    KeptSplit(journal, n, |journal|, {});
    KeptNothing(journal, c, n);
    SameRest(Kept(journal, 0, c, {}), Kept(journal, c, n, {}), Kept(journal, n, |journal|, {}), Kept(journal, c, |journal|, {}));
    ResponseCompose(journal, c, n, |journal|, response);
    RemainingCompose(journal, c, n, |journal|, remaining);
    if forall i :: c <= i < n ==> !IsProgressEvent(journal[i]) {
      ResponseQuiet(journal, c, n, response, max);
      RemainingQuiet(journal, c, n, remaining, max);
    }
  }

  lemma SameRest<T>(front: seq<T>, a: seq<T>, b: seq<T>, ab: seq<T>)
    requires (front + a) + b == front + ab
    ensures ab == b <==> a == []
  {
    assert ab == (front + ab)[|front|..] && a + b == ((front + a) + b)[|front|..];
  }

  /** A snapshot without watermark, event ids and trace is never rejected. It is restored to the
      same progress as the snapshot with them exactly when that was caught up, and then to the same
      response and rounds left too. */
  lemma LegacyRestoresTheSame(s: Run, journal: seq<Event>, skipped: set<nat>, request: Request)
    requires JournalOk(journal, request.maxToolRounds) && Faithful(s, journal, skipped, request)
    ensures var legacy, (restored, error) := LegacyRestore(Stripped(s), journal), Restore(s, journal);
            && legacy.Some? && legacy.value.1 == None && error == None
            && (Progress(legacy.value.0.steps) == Progress(restored.steps) <==> CaughtUp(s, journal))
            && (CaughtUp(s, journal) ==>
                  legacy.value.0.response == restored.response && legacy.value.0.remaining == restored.remaining)
  {
    hide Faithful, JournalOk, LegacyTail, Replay, Restore, Progress, Kept, ResponseFrom, RemainingFrom, BuiltTrace, IsProgressEvent, StepIds, Replayable, Align, ProgressSteps;
    var max := request.maxToolRounds;
    var c := LegacyTailIs(s, journal, skipped, request);
    var bare := Stripped(s).(applied := c);
    FaithfulIsReplayable(s, journal, skipped, request);
    FaithfulView(s, journal, skipped, request);
    RestoreBuilds(s, journal, max);
    BareIsReplayable(bare, s.steps, journal);
    ReplayBuilds(bare, journal, |journal|, max);
    assert journal[c..|journal|] == journal[c..];
    ReplayIgnoresWatermark(Stripped(s), c, StepIds(bare.steps), journal[c..]);
    ProgressIgnoresIds(s.steps);
    QuietStart(journal, c, s.applied, s.response, s.remaining, max);
    SameFront(Progress(s.steps), Kept(journal, c, |journal|, {}), Kept(journal, s.applied, |journal|, {}));
  }

  lemma SameFront<T>(front: seq<T>, a: seq<T>, b: seq<T>)
    ensures front + a == front + b <==> a == b
  {
    assert a == (front + a)[|front|..] && b == (front + b)[|front|..];
  }

  lemma BareIsReplayable(bare: Run, steps: seq<Step>, journal: seq<Event>)
    requires bare.applied <= |journal| && bare.trace == [] && bare.steps == Unstamped(steps)
    ensures Replayable(bare, journal)
  {
  }

  /** A snapshot that passed over an orphaned response, as one paused after a torn resume has: its
      watermark keeps the response out, without it the response is replayed. */
  lemma OrphanIsTakenIn(request: Request, response: Response) returns (s: Run, journal: seq<Event>)
    ensures JournalOk(journal, request.maxToolRounds) && Faithful(s, journal, {0}, request) && !CaughtUp(s, journal)
    ensures Progress(Restore(s, journal).0.steps) == [] && LegacyRestore(Stripped(s), journal).Some?
    ensures Progress(LegacyRestore(Stripped(s), journal).value.0.steps) != []
  {
    var chat := BareEvent(ChatCompleted).(id := Some(0), sequence := Some(1), response := Some(response), remaining := Some(request.maxToolRounds));
    var paused := BareEvent(RunPaused).(id := Some(1), sequence := Some(2));
    journal := [chat, paused];
    s := NewRun(request).(status := Paused, applied := 2, trace := [paused]);
    PassedOver(s, journal, request);
    hide Align, Faithful, JournalOk, LegacyRestore, Restore, Progress, Kept, BuiltTrace, StepIds, Replayable, ResponseFrom, RemainingFrom;
    LegacyRestoresTheSame(s, journal, {0}, request);
    FaithfulIsReplayable(s, journal, {0}, request);
    RestoreBuilds(s, journal, request.maxToolRounds);
    KeptNone(journal, 2, {});
  }

  lemma PassedOver(s: Run, journal: seq<Event>, request: Request)
    requires |journal| == 2 && JournalOk(journal, request.maxToolRounds)
    requires journal[0].kind == ChatCompleted && journal[1].kind == RunPaused
    requires s == NewRun(request).(status := Paused, applied := 2, trace := [journal[1]])
    ensures Faithful(s, journal, {0}, request) && !CaughtUp(s, journal) && Progress(s.steps) == []
  {
    assert journal[1] in s.trace && journal[0] != journal[1];
    assert ProgressSteps(Unstamped([])) == [];
    assert EventOk(journal[0], request.maxToolRounds) && IsProgressEvent(journal[0]);
    assert Kept(journal, 0, 2, {0}) == Kept(journal, 0, 1, {0}) == [];
    assert LastResponse(journal, 0, {0}) == None;
    assert LastResponse(journal, 2, {0}) == LastResponse(journal, 1, {0}) == None;
    var max := request.maxToolRounds;
    assert LastRemaining(journal, 0, {0}, max) == max;
    assert LastRemaining(journal, 2, {0}, max) == LastRemaining(journal, 1, {0}, max) == max;
    assert Noticed(journal, 2, journal[1]);
    assert StepIds([]) == {};
  }

  /** Over every exclusive run: any snapshot ever saved, with all that locates it in the journal
      taken away, is restored to the same progress exactly when it was caught up. */
  lemma LegacyReplaySplits(ws: seq<World>, request: Request, runId: string, steps: seq<Label>, k: nat, s: Run)
    requires ExclusiveRun(ws, request, runId, steps) && k < |ws| && Saved(ws[k].d, s)
    ensures var legacy, restored := LegacyRestore(Stripped(s), ws[k].d.journal), Restore(s, ws[k].d.journal);
            && legacy.Some? && legacy.value.1 == None && restored.1 == None
            && (Progress(legacy.value.0.steps) == Progress(restored.0.steps) <==> CaughtUp(s, ws[k].d.journal))
  {
    hide ExclusiveRun, LegacyRestore, Restore, Progress, CaughtUp, JournalOk;
    RunsInStep(ws, request, runId, steps, k);
    LegacyRestoresTheSame(s, ws[k].d.journal, ws[k].d.skipped, request);
  }

  /** In an untorn run that has not stopped every snapshot is caught up: so restored, it still gives
      the progress and the response of the run at the end of the journal, and at least its rounds
      left. */
  lemma LegacyReplayAgrees(ws: seq<World>, request: Request, runId: string, steps: seq<Label>, k: nat, live: Live, s: Run)
    requires UntornRun(ws, request, runId, steps) && k < |ws|
    requires Current(ws[k], live) && Saved(ws[k].d, s) && Alive(ws[k].d)
    ensures var legacy := LegacyRestore(Stripped(s), ws[k].d.journal);
            && legacy.Some? && legacy.value.1 == None
            && Progress(legacy.value.0.steps) == Progress(live.run.steps)
            && legacy.value.0.response == live.run.response
            && live.run.remaining <= legacy.value.0.remaining
  {
    hide UntornRun, Current, LegacyRestore, Restore, Progress, Charged, RestoredShape, CopyShape, RunShape, CaughtUp;
    UntornReplayAgrees(false, ws, request, runId, steps, k, live, s);
    RunsShape(false, ws, request, runId, steps, k);
    MissedNothing(s, ws[k].d.journal, ws[k].d.skipped, request);
    LegacyRestoresTheSame(s, ws[k].d.journal, ws[k].d.skipped, request);
  }
}
