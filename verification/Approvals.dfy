/** Approvals of tool calls across resumes (application/agent_execution.py): decisions are kept per
    round and call id, so that one given for a call never serves another round that reuses its id. */
module Approvals {
  import opened Wrappers
  import opened Runs
  import opened Recovery
  import opened Machine
  import opened Agreement
  import opened Exclusive
  import opened Protocol

  /** A decision on a call; `answer` stands for its status, reason and metadata. */
  datatype Decision = Decision(id: string, round: Option<nat>, answer: string)

  /** A decision without a round belongs to the first response. */
  function RoundOf(d: Decision): nat {
    if d.round == None || d.round.value == 0 then 1 else d.round.value
  }

  /** _round_tool_approvals: the decision in force for a call of a round, the last one listed. */
  function InForce(ds: seq<Decision>, round: nat, id: string): (found: Option<Decision>)
    ensures found.Some? ==> found.value in ds && RoundOf(found.value) == round && found.value.id == id
    ensures found == None <==> forall d :: d in ds ==> RoundOf(d) != round || d.id != id
  {
    if ds == [] then None
    else
      var last := ds[|ds| - 1];
      if RoundOf(last) == round && last.id == id then Some(last) else InForce(ds[..|ds| - 1], round, id)
  }

  method RoundToolApprovals(ds: seq<Decision>, round: nat) returns (byId: map<string, Decision>)
    ensures forall id :: InForce(ds, round, id) == if id in byId then Some(byId[id]) else None
  {
    byId := map[];
    var i := 0;
    while i < |ds|
      invariant 0 <= i <= |ds|
      invariant forall id :: InForce(ds[..i], round, id) == if id in byId then Some(byId[id]) else None
    {
      assert ds[..i + 1][..i] == ds[..i];
      if RoundOf(ds[i]) == round { byId := byId[ds[i].id := ds[i]]; }
      i := i + 1;
    }
    assert ds[..i] == ds;
  }

  // ------------------------------------------------------------------------- merging

  /** What a resume in this round decides about a call: the last of its decisions. */
  function Given(new_: seq<Decision>, id: string): Option<Decision> {
    if new_ == [] then None
    else if new_[|new_| - 1].id == id then Some(new_[|new_| - 1])
    else Given(new_[..|new_| - 1], id)
  }

  /** One decision per round and call id. */
  predicate Keyed(ds: seq<Decision>) {
    forall i, j :: 0 <= i < j < |ds| ==> RoundOf(ds[i]) != RoundOf(ds[j]) || ds[i].id != ds[j].id
  }

  /** Setting a key of the dictionary: in its place, or at the end when it is new. */
  function Put(ds: seq<Decision>, d: Decision): seq<Decision> {
    if ds == [] then [d]
    else if RoundOf(ds[0]) == RoundOf(d) && ds[0].id == d.id then [d] + ds[1..]
    else [ds[0]] + Put(ds[1..], d)
  }

  function PutAll(ds: seq<Decision>, more: seq<Decision>): seq<Decision>
    decreases |more|
  {
    if more == [] then ds else PutAll(Put(ds, more[0]), more[1..])
  }

  function Stamped(new_: seq<Decision>, round: nat): seq<Decision> {
    if new_ == [] then [] else [new_[0].(round := Some(round))] + Stamped(new_[1..], round)
  }

  /** _merge_tool_approvals. Every resume merges for a round from 1 on. */
  function Merged(existing: seq<Decision>, new_: seq<Decision>, round: nat): seq<Decision> {
    PutAll(PutAll([], existing), Stamped(new_, round))
  }

  method MergeToolApprovals(existing: seq<Decision>, new_: seq<Decision>, round: nat) returns (merged: seq<Decision>)
    ensures merged == Merged(existing, new_, round)
  {
    merged := [];
    var i := 0;
    assert existing[0..] == existing;
    while i < |existing|
      invariant 0 <= i <= |existing|
      invariant PutAll(merged, existing[i..]) == PutAll([], existing)
    {
      assert existing[i..][1..] == existing[i + 1..];
      merged := Put(merged, existing[i]);
      i := i + 1;
    }
    assert existing[i..] == [];
    i := 0;
    assert new_[0..] == new_;
    while i < |new_|
      invariant 0 <= i <= |new_|
      invariant PutAll(merged, Stamped(new_[i..], round)) == Merged(existing, new_, round)
    {
      StampedStep(new_, i, round);
      merged := Put(merged, new_[i].(round := Some(round)));
      i := i + 1;
    }
    assert new_[i..] == [];
  }

  lemma StampedStep(new_: seq<Decision>, i: nat, round: nat)
    requires i < |new_|
    ensures var rest := Stamped(new_[i..], round);
            rest != [] && rest[0] == new_[i].(round := Some(round)) && rest[1..] == Stamped(new_[i + 1..], round)
  {
    assert new_[i..][1..] == new_[i + 1..];
  }

  lemma {:induction false} PutDecides(ds: seq<Decision>, d: Decision, round: nat, id: string)
    requires Keyed(ds)
    ensures Keyed(Put(ds, d))
    ensures forall x :: x in Put(ds, d) <==> x == d || (x in ds && (RoundOf(x) != RoundOf(d) || x.id != d.id))
    ensures InForce(Put(ds, d), round, id)
            == if RoundOf(d) == round && d.id == id then Some(d) else InForce(ds, round, id)
    decreases |ds|
  {
    hide InForce, RoundOf;
    PutIs(ds, d);
    KeyedFinds(ds, round, id);
    KeyedFinds(Put(ds, d), round, id);
  }

  /** With one decision per key, the one in force is the only one listed. */
  lemma KeyedFinds(ds: seq<Decision>, round: nat, id: string)
    requires Keyed(ds)
    ensures forall d :: d in ds && RoundOf(d) == round && d.id == id ==> InForce(ds, round, id) == Some(d)
  {
  }

  lemma {:induction false} PutIs(ds: seq<Decision>, d: Decision)
    requires Keyed(ds)
    ensures Keyed(Put(ds, d))
    ensures forall x :: x in Put(ds, d) <==> x == d || (x in ds && (RoundOf(x) != RoundOf(d) || x.id != d.id))
    decreases |ds|
  {
    hide RoundOf;
    if ds != [] {
      var head, tail := ds[0], ds[1..];
      assert ds == [head] + tail;
      forall x | x in tail ensures RoundOf(x) != RoundOf(head) || x.id != head.id {
        var i :| 0 <= i < |tail| && tail[i] == x;
        assert ds[i + 1] == x;
      }
      PutIs(tail, d);
    }
  }

  lemma {:induction false} PutAllDecides(ds: seq<Decision>, more: seq<Decision>, round: nat, id: string)
    requires Keyed(ds)
    ensures Keyed(PutAll(ds, more))
    ensures InForce(PutAll(ds, more), round, id)
            == if InForce(more, round, id).Some? then InForce(more, round, id) else InForce(ds, round, id)
    decreases |more|
  {
    hide RoundOf, Keyed, Put;
    if more != [] {
      PutDecides(ds, more[0], round, id);
      PutAllDecides(Put(ds, more[0]), more[1..], round, id);
      InForceCons(more, round, id);
    }
  }

  lemma {:induction false} InForceCons(ds: seq<Decision>, round: nat, id: string)
    requires ds != []
    ensures InForce(ds, round, id)
            == if InForce(ds[1..], round, id).Some? then InForce(ds[1..], round, id)
               else if RoundOf(ds[0]) == round && ds[0].id == id then Some(ds[0]) else None
    decreases |ds|
  {
    hide RoundOf;
    if |ds| > 1 {
      InForceCons(ds[..|ds| - 1], round, id);
      assert ds[..|ds| - 1][1..] == ds[1..][..|ds| - 2];
    }
  }

  lemma {:induction false} StampedGives(new_: seq<Decision>, at: nat, round: nat, id: string)
    requires at >= 1
    ensures InForce(Stamped(new_, at), round, id)
            == if round != at || Given(new_, id) == None then None else Some(Given(new_, id).value.(round := Some(at)))
    decreases |new_|
  {
    if new_ != [] {
      var front, last := new_[..|new_| - 1], new_[|new_| - 1];
      StampedGives(front, at, round, id);
      StampedPush(front, last, at);
      assert new_ == front + [last];
    }
  }

  lemma {:induction false} StampedPush(new_: seq<Decision>, d: Decision, round: nat)
    ensures Stamped(new_ + [d], round) == Stamped(new_, round) + [d.(round := Some(round))]
    decreases |new_|
  {
    if new_ == [] {
      assert new_ + [d] == [d];
    } else {
      assert (new_ + [d])[1..] == new_[1..] + [d];
      StampedPush(new_[1..], d, round);
    }
  }

  /** After a merge the decision on a call of its round is the one given now, if any; every other
      decision in force is as it was, and there is one per round and call id. */
  lemma MergeDecides(existing: seq<Decision>, new_: seq<Decision>, at: nat, round: nat, id: string)
    requires at >= 1
    ensures Keyed(Merged(existing, new_, at))
    ensures InForce(Merged(existing, new_, at), round, id)
            == if round == at && Given(new_, id).Some? then Some(Given(new_, id).value.(round := Some(at)))
               else InForce(existing, round, id)
  {
    hide InForce, PutAll, Stamped;
    PutAllDecides([], existing, round, id);
    PutAllDecides(PutAll([], existing), Stamped(new_, at), round, id);
    StampedGives(new_, at, round, id);
    assert InForce([], round, id) == None;
  }

  // ------------------------------------------------------------------ whole histories

  /** A resume: the round it happens in and the decisions it brings. */
  datatype Resume = Resume(round: nat, decisions: seq<Decision>)

  function AfterAll(initial: seq<Decision>, resumes: seq<Resume>): seq<Decision> {
    if resumes == [] then initial
    else
      var last := resumes[|resumes| - 1];
      Merged(AfterAll(initial, resumes[..|resumes| - 1]), last.decisions, last.round)
  }

  /** The last decision on the call brought by a resume in this very round. */
  function LastGiven(resumes: seq<Resume>, round: nat, id: string): Option<Decision> {
    if resumes == [] then None
    else
      var last := resumes[|resumes| - 1];
      if last.round == round && Given(last.decisions, id).Some?
      then Some(Given(last.decisions, id).value.(round := Some(round)))
      else LastGiven(resumes[..|resumes| - 1], round, id)
  }

  /** However often a run is resumed: the decision in force for a call is the last one a resume in
      its own round brought, or else what the request itself came with. */
  lemma {:induction false} ApprovalsAreScoped(initial: seq<Decision>, resumes: seq<Resume>, round: nat, id: string)
    requires forall r :: r in resumes ==> r.round >= 1
    ensures InForce(AfterAll(initial, resumes), round, id)
            == if LastGiven(resumes, round, id).Some? then LastGiven(resumes, round, id) else InForce(initial, round, id)
    decreases |resumes|
  {
    hide InForce, Given, Merged;
    if resumes != [] {
      var front, last := resumes[..|resumes| - 1], resumes[|resumes| - 1];
      assert last in resumes && forall r :: r in front ==> r in resumes;
      ApprovalsAreScoped(initial, front, round, id);
      MergeDecides(AfterAll(initial, front), last.decisions, last.round, round, id);
    }
  }

  /** A decision does not carry over: a call of a round is decided exactly when some resume in this
      very round decided it, or the request came with a decision for this round. */
  lemma NoCarryOver(initial: seq<Decision>, resumes: seq<Resume>, round: nat, id: string)
    requires forall r :: r in resumes ==> r.round >= 1
    ensures InForce(AfterAll(initial, resumes), round, id).Some?
            <==> (exists r, d :: r in resumes && r.round == round && d in r.decisions && d.id == id)
                 || (exists d :: d in initial && RoundOf(d) == round && d.id == id)
  {
    hide Given, AfterAll, LastGiven;
    ApprovalsAreScoped(initial, resumes, round, id);
    LastGivenExists(resumes, round, id);
  }

  lemma {:induction false} LastGivenExists(resumes: seq<Resume>, round: nat, id: string)
    ensures LastGiven(resumes, round, id).Some?
            <==> exists r, d :: r in resumes && r.round == round && d in r.decisions && d.id == id
    decreases |resumes|
  {
    hide Given;
    if resumes != [] {
      var front, last := resumes[..|resumes| - 1], resumes[|resumes| - 1];
      assert resumes == front + [last];
      LastGivenExists(front, round, id);
      GivenExists(last.decisions, id);
    }
  }

  lemma {:induction false} GivenExists(new_: seq<Decision>, id: string)
    ensures Given(new_, id).Some? <==> exists d :: d in new_ && d.id == id
    decreases |new_|
  {
    if new_ != [] {
      assert new_ == new_[..|new_| - 1] + [new_[|new_| - 1]];
      GivenExists(new_[..|new_| - 1], id);
    }
  }

  // ------------------------------------------------------------- resuming from approvals

  /** A run with a response is in a round: what a resume decides is never kept for round 0. */
  lemma ResponsesComeInRounds(ws: seq<World>, request: Request, runId: string, steps: seq<Label>, k: nat, s: Run)
    requires ExclusiveRun(ws, request, runId, steps) && k < |ws| && Saved(ws[k].d, s) && s.response.Some?
    ensures Round(s.steps) >= 1
  {
    hide ExclusiveRun, Saved, Kept, LastResponse, Progress, Round, JournalOk;
    RunsInStep(ws, request, runId, steps, k);
    assert Faithful(s, ws[k].d.journal, ws[k].d.skipped, request);
    ResponseHasRound(ws[k].d.journal, s.applied, ws[k].d.skipped, request.maxToolRounds);
    ProgressCounts(s.steps);
  }

  lemma {:induction false} ResponseHasRound(journal: seq<Event>, end: nat, skipped: set<nat>, max: nat)
    requires JournalOk(journal, max) && end <= |journal| && LastResponse(journal, end, skipped).Some?
    ensures Round(Kept(journal, 0, end, skipped)) >= 1
    decreases end
  {
    var e, before := journal[end - 1], Kept(journal, 0, end - 1, skipped);
    assert EventOk(e, max);
    if IsProgressEvent(e) && end - 1 !in skipped {
      var s := ProgressOf(e).value;
      assert (before + [s])[..|before|] == before;
    }
    if !(e.kind == ChatCompleted && end - 1 !in skipped) { ResponseHasRound(journal, end - 1, skipped, max); }
  }

  /** The pending calls on which neither the resume nor anything before it in this round decides. */
  function Undecided(pending: set<string>, existing: seq<Decision>, new_: seq<Decision>, round: nat): set<string> {
    set id | id in pending && Given(new_, id) == None && InForce(existing, round, id) == None
  }

  /** The approval branch of _resume_agent_events: the merged decisions, or the pending calls that
      still lack one. */
  method ResumeApprovals(pending: set<string>, existing: seq<Decision>, new_: seq<Decision>, round: nat)
    returns (r: Result<seq<Decision>, set<string>>)
    requires round >= 1
    ensures var missing := Undecided(pending, existing, new_, round);
            r == if missing == {} then Success(Merged(existing, new_, round)) else Failure(missing)
  {
    hide Given, InForce, Merged;
    var merged := MergeToolApprovals(existing, new_, round);
    var byId := RoundToolApprovals(merged, round);
    var missing := set id | id in pending && id !in byId;
    forall id | id in pending ensures id !in byId <==> Given(new_, id) == None && InForce(existing, round, id) == None {
      MergeDecides(existing, new_, round, round, id);
    }
    assert missing == Undecided(pending, existing, new_, round);
    if missing != {} { return Failure(missing); }
    return Success(merged);
  }
}
