/** Shutdown (application/agent_lifecycle.py): admission of executions, and the closing calls
    that block it, wait for the executions inside, and pause what is still stored as running. */
module Shutdown {
  import opened Wrappers
  import opened Runs
  import opened Machine
  import opened Safety
  import opened Exclusive

  // ----------------------------------------------------------------------- the gate

  /** The two fields of _AgentRunLifecycle. */
  datatype Gate = Gate(closing: bool, active: int)

  function Entered(g: Gate): Gate {
    if g.closing then g else g.(active := g.active + 1)
  }

  function Exited(g: Gate): Gate {
    g.(active := if g.active - 1 <= 0 then 0 else g.active - 1)
  }

  class Lifecycle {
    var closing: bool
    var active: int

    function Value(): Gate
      reads this
    {
      Gate(closing, active)
    }

    constructor ()
      ensures Value() == Gate(false, 0)
    {
      closing, active := false, 0;
    }

    /** _enter_run; a refusal stands for AgentShutdownError. */
    method Enter() returns (admitted: bool)
      modifies this
      ensures admitted <==> !old(closing)
      ensures Value() == Entered(old(Value()))
    {
      if closing { return false; }
      active := active + 1;
      return true;
    }

    /** _exit_run. */
    method Exit()
      modifies this`active
      ensures Value() == Exited(old(Value()))
    {
      active := active - 1;
      if active <= 0 { active := 0; }
    }

    /** One turn of close around its wait: whether the executions have drained. */
    method Block() returns (drained: bool)
      modifies this`closing
      ensures Value() == old(Value()).(closing := true)
      ensures drained <==> old(active) == 0
    {
      if !closing { closing := true; }
      return active == 0;
    }
  }

  // -------------------------------------------------------------------- the process

  /** How far a call of close has come. */
  datatype Closer = Waiting | Drained | Closed

  /** A server process: the gate, the executions inside with the run each works on, the calls of
      close, and every stored run with the copies its executions hold. */
  datatype Process = Process(
    gate: Gate,
    inside: map<nat, string>,
    closers: map<nat, Closer>,
    worlds: map<string, World>)

  datatype Happening =
    | Store(run: string, request: Request)
    | Admit(execution: nat, run: string)
    | Work(execution: nat, copy: nat, action: Action)
    | Control(run: string, op: Op)
    | Leave(execution: nat)
    | Close(closer: nat)
    | Drain(closer: nat)
    | PauseAll(closer: nat)

  function ShutdownStep(): Label {
    Label(Suspend(PauseCause.Shutdown, false), None)
  }

  function Holders(p: Process, run: string): set<nat> {
    set x | x in p.inside && p.inside[x] == run
  }

  /** What may happen when: an execution works on its own run, leaves when its copy has ended,
      and a closing call goes on when the counter is zero. */
  predicate Possible(p: Process, h: Happening) {
    match h
    case Store(run, _) => run !in p.worlds
    case Admit(x, run) => x !in p.inside && run in p.worlds
    case Work(x, _, _) => x in p.inside && p.inside[x] in p.worlds
    case Control(run, op) => run in p.worlds && !op.Act? && !op.Load?
    case Leave(x) => x in p.inside && p.inside[x] in p.worlds && |p.worlds[p.inside[x]].copies| < |Holders(p, p.inside[x])|
    case Close(c) => c !in p.closers
    case Drain(c) => c in p.closers && p.closers[c] == Waiting && p.gate.active == 0
    case PauseAll(c) => c in p.closers && p.closers[c] == Drained
  }

  /** A run stored and not started yet is given its first copy when its execution is let in. */
  function Started(w: World, run: string): World {
    if w.d.journal == [] && w.copies == [] then w.(copies := [Live(w.d.snap, Fresh, false, {})])
    else Next(w, run, Label(Load, None))
  }

  function After(p: Process, h: Happening): Process
    requires Possible(p, h)
  {
    match h
    case Store(run, request) => p.(worlds := p.worlds[run := StartWorld(request).(copies := [])])
    case Admit(x, run) =>
      if p.gate.closing then p
      else p.(gate := Entered(p.gate), inside := p.inside[x := run], worlds := p.worlds[run := Started(p.worlds[run], run)])
    case Work(x, i, action) =>
      var run := p.inside[x];
      p.(worlds := p.worlds[run := Next(p.worlds[run], run, Label(Act(i, action), None))])
    case Control(run, op) => p.(worlds := p.worlds[run := Next(p.worlds[run], run, Label(op, None))])
    case Leave(x) => p.(gate := Exited(p.gate), inside := p.inside - {x})
    case Close(c) => p.(gate := p.gate.(closing := true), closers := p.closers[c := Waiting])
    case Drain(c) => p.(closers := p.closers[c := Drained])
    case PauseAll(c) =>
      p.(closers := p.closers[c := Closed],
         worlds := map run | run in p.worlds :: Next(p.worlds[run], run, ShutdownStep()))
  }

  /** A life of the process: any interleaving at all. */
  ghost predicate IsLife(ps: seq<Process>, hs: seq<Happening>) {
    && |ps| == |hs| + 1 && ps[0] == Process(Gate(false, 0), map[], map[], map[])
    && forall i {:trigger hs[i]} :: 0 <= i < |hs| ==> Possible(ps[i], hs[i]) && ps[i + 1] == After(ps[i], hs[i])
  }

  // ---------------------------------------------------------------------- invariant

  ghost predicate Sound(p: Process) {
    && p.gate.active == |p.inside|
    && (forall x :: x in p.inside ==> p.inside[x] in p.worlds)
    && (forall run :: run in p.worlds ==> |p.worlds[run].copies| <= |Holders(p, run)|)
    && (p.closers != map[] ==> p.gate.closing)
    && (forall c :: c in p.closers && p.closers[c] != Waiting ==> p.inside == map[])
  }

  lemma CopiesNeverGrow(w: World, run: string, step: Label)
    requires !step.op.Load?
    ensures |Next(w, run, step).copies| <= |w.copies|
  {
    hide ActSegment, OpWrites, ApplyAll;
  }

  lemma StartedCopies(w: World, run: string)
    ensures |Started(w, run).copies| == |w.copies| + 1
  {
    hide OpWrites, ApplyAll;
  }

  lemma OneMoreHolder(p: Process, x: nat, run: string, other: string)
    requires x !in p.inside
    ensures var q := p.(inside := p.inside[x := run]);
            Holders(q, other) == Holders(p, other) + (if other == run then {x} else {}) && x !in Holders(p, other)
            && |q.inside| == |p.inside| + 1
  {
  }

  lemma OneLessHolder(p: Process, x: nat, other: string)
    requires x in p.inside
    ensures var q := p.(inside := p.inside - {x});
            Holders(q, other) == Holders(p, other) - {x} && (x in Holders(p, other) <==> p.inside[x] == other)
            && |q.inside| == |p.inside| - 1
  {
    var q := p.(inside := p.inside - {x});
    assert q.inside.Keys == p.inside.Keys - {x};
    assert |q.inside| == |q.inside.Keys| && |p.inside| == |p.inside.Keys|;
  }

  lemma AdmitKeeps(p: Process, x: nat, run: string)
    requires Sound(p) && Possible(p, Admit(x, run))
    ensures Sound(After(p, Admit(x, run)))
  {
    hide Started;
    if !p.gate.closing {
      var q := After(p, Admit(x, run));
      StartedCopies(p.worlds[run], run);
      OneMoreHolder(p, x, run, run);
      forall r | r in q.worlds ensures |q.worlds[r].copies| <= |Holders(q, r)| {
        OneMoreHolder(p, x, run, r);
        assert Holders(q, r) == Holders(p.(inside := p.inside[x := run]), r);
      }
    }
  }

  lemma LeaveKeeps(p: Process, x: nat)
    requires Sound(p) && Possible(p, Leave(x))
    ensures Sound(After(p, Leave(x)))
  {
    var q := After(p, Leave(x));
    OneLessHolder(p, x, p.inside[x]);
    forall r | r in q.worlds ensures |q.worlds[r].copies| <= |Holders(q, r)| {
      OneLessHolder(p, x, r);
      assert Holders(q, r) == Holders(p.(inside := p.inside - {x}), r);
    }
  }

  /** Steps that leave the executions inside alone. */
  lemma WorldsKeep(p: Process, q: Process)
    requires Sound(p) && q.inside == p.inside && q.gate == p.gate && q.closers.Keys == p.closers.Keys
    requires q.worlds.Keys == p.worlds.Keys
    requires forall r :: r in p.worlds ==> |q.worlds[r].copies| <= |p.worlds[r].copies|
    requires forall c :: c in q.closers && q.closers[c] != Waiting && p.closers[c] == Waiting ==> q.inside == map[]
    ensures Sound(q)
  {
    forall r | r in q.worlds ensures |q.worlds[r].copies| <= |Holders(q, r)| {
      assert Holders(q, r) == Holders(p, r);
    }
    assert p.closers == map[] ==> q.closers == map[];
  }

  lemma StepKeeps(p: Process, h: Happening)
    requires Sound(p) && Possible(p, h)
    ensures Sound(After(p, h))
  {
    hide Next, Sound, Holders;
    var q := After(p, h);
    match h
    case Store(run, request) => StoreKeeps(p, run, request);
    case Admit(x, run) => AdmitKeeps(p, x, run);
    case Work(x, i, action) =>
      CopiesNeverGrow(p.worlds[p.inside[x]], p.inside[x], Label(Act(i, action), None));
      WorldsKeep(p, q);
    case Control(run, op) =>
      CopiesNeverGrow(p.worlds[run], run, Label(op, None));
      WorldsKeep(p, q);
    case Leave(x) => LeaveKeeps(p, x);
    case Close(c) => CloseKeeps(p, c);
    case Drain(c) =>
      NobodyInside(p);
      WorldsKeep(p, q);
    case PauseAll(c) =>
      forall r | r in p.worlds ensures |q.worlds[r].copies| <= |p.worlds[r].copies| {
        CopiesNeverGrow(p.worlds[r], r, ShutdownStep());
      }
      WorldsKeep(p, q);
  }

  lemma StoreKeeps(p: Process, run: string, request: Request)
    requires Sound(p) && Possible(p, Store(run, request))
    ensures Sound(After(p, Store(run, request)))
  {
    var q := After(p, Store(run, request));
    forall r | r in q.worlds ensures |q.worlds[r].copies| <= |Holders(q, r)| {
      assert Holders(q, r) == Holders(p, r);
    }
  }

  lemma CloseKeeps(p: Process, c: nat)
    requires Sound(p) && Possible(p, Close(c))
    ensures Sound(After(p, Close(c)))
  {
    var q := After(p, Close(c));
    forall r | r in q.worlds ensures |q.worlds[r].copies| <= |Holders(q, r)| {
      assert Holders(q, r) == Holders(p, r);
    }
  }

  lemma NobodyInside(p: Process)
    requires Sound(p) && p.gate.active == 0
    ensures p.inside == map[]
  {
    assert p.inside.Keys == {};
  }

  lemma {:induction false} LivesAreSound(ps: seq<Process>, hs: seq<Happening>, k: nat)
    requires IsLife(ps, hs) && k < |ps|
    ensures Sound(ps[k])
    decreases k
  {
    hide Sound, Possible, After;
    if k > 0 {
      LivesAreSound(ps, hs, k - 1);
      StepKeeps(ps[k - 1], hs[k - 1]);
    } else {
      NewIsSound();
    }
  }

  lemma NewIsSound()
    ensures Sound(Process(Gate(false, 0), map[], map[], map[]))
  {
  }

  // ------------------------------------------------------------------- main results

  /** Once a close has begun, no execution enters: those inside are among those inside then. */
  lemma {:induction false} NoneEntersAfterClose(ps: seq<Process>, hs: seq<Happening>, j: nat, k: nat)
    requires IsLife(ps, hs) && j <= k < |ps| && ps[j].gate.closing
    ensures ps[k].gate.closing && forall x :: x in ps[k].inside ==> x in ps[j].inside && ps[k].inside[x] == ps[j].inside[x]
    decreases k
  {
    hide Next, Started;
    if k > j {
      NoneEntersAfterClose(ps, hs, j, k - 1);
      assert ps[k] == After(ps[k - 1], hs[k - 1]);
    }
  }

  /** The shutdown pause finds no execution alive, in whatever order calls of close, admissions
      and exits interleave: its recovery step runs alone on every run. */
  lemma ShutdownRunsAlone(ps: seq<Process>, hs: seq<Happening>, k: nat)
    requires IsLife(ps, hs) && k < |hs| && hs[k].PauseAll?
    ensures ps[k].inside == map[]
    ensures forall run :: run in ps[k].worlds ==> ps[k].worlds[run].copies == [] && Alone(ps[k].worlds[run], ShutdownStep().op)
  {
    LivesAreSound(ps, hs, k);
    var p := ps[k];
    assert Possible(p, hs[k]);
    forall run | run in p.worlds ensures p.worlds[run].copies == [] {
      assert Holders(p, run) == {};
    }
  }

  /** After the pause, no run that was stored by then is stored as RUNNING ever again in this
      process, whatever else happens. */
  lemma {:induction false} NoneLeftRunning(ps: seq<Process>, hs: seq<Happening>, j: nat, k: nat)
    requires IsLife(ps, hs) && j < k < |ps| && hs[j].PauseAll?
    ensures ps[k].inside == map[] && ps[k].gate.closing
    ensures forall run :: run in ps[j].worlds ==> run in ps[k].worlds && ps[k].worlds[run].d.snap.status != Running
    decreases k
  {
    hide Next, Started;
    ShutdownRunsAlone(ps, hs, j);
    LivesAreSound(ps, hs, j);
    NoneEntersAfterClose(ps, hs, j, k);
    assert ps[k].inside.Keys == {};
    if k == j + 1 {
      forall run | run in ps[j].worlds ensures ps[k].worlds[run].d.snap.status != Running {
        SuspendStops(ps[j].worlds[run], run);
      }
    } else {
      NoneLeftRunning(ps, hs, j, k - 1);
      StillStopped(ps, hs, j, k);
    }
  }

  /** Of the runs stored by the time of the pause or after it, exactly the later ones are RUNNING,
      as long as no control call on the run and no further pause reaches them: their executions
      are refused, so nothing in this process works on them. */
  lemma {:induction false} RunningExactly(ps: seq<Process>, hs: seq<Happening>, j: nat, k: nat, run: string)
    requires IsLife(ps, hs) && j < k < |ps| && hs[j].PauseAll? && run in ps[k].worlds
    requires forall i :: j < i < k && (hs[i].PauseAll? || (hs[i].Control? && hs[i].run == run)) ==> run in ps[j].worlds
    ensures ps[k].worlds[run].d.snap.status != Running <==> run in ps[j].worlds
    decreases k
  {
    hide Next, Started;
    NoneLeftRunning(ps, hs, j, k);
    if k > j + 1 && run !in ps[j].worlds {
      NoneLeftRunning(ps, hs, j, k - 1);
      assert Possible(ps[k - 1], hs[k - 1]) && ps[k] == After(ps[k - 1], hs[k - 1]);
      if run in ps[k - 1].worlds { RunningExactly(ps, hs, j, k - 1, run); }
    }
  }

  /** A run stored after the pause: its execution is refused, and RUNNING is what stays stored. */
  lemma RefusedStaysRunning(run: string, request: Request) returns (ps: seq<Process>, hs: seq<Happening>)
    ensures hs == [Close(0), Drain(0), PauseAll(0), Store(run, request), Admit(0, run)] && IsLife(ps, hs)
    ensures ps[5].inside == map[] && run in ps[5].worlds && ps[5].worlds[run].d.snap.status == Running
  {
    hide Next, Started;
    hs := [Close(0), Drain(0), PauseAll(0), Store(run, request), Admit(0, run)];
    var p0 := Process(Gate(false, 0), map[], map[], map[]);
    var p1 := After(p0, hs[0]);
    var p2 := After(p1, hs[1]);
    var p3 := After(p2, hs[2]);
    var p4 := After(p3, hs[3]);
    ps := [p0, p1, p2, p3, p4, After(p4, hs[4])];
  }

  lemma StillStopped(ps: seq<Process>, hs: seq<Happening>, j: nat, k: nat)
    requires IsLife(ps, hs) && 0 < k < |ps| && j < |ps| && ps[k - 1].inside == map[] && ps[k - 1].gate.closing
    requires forall run :: run in ps[j].worlds ==> run in ps[k - 1].worlds && ps[k - 1].worlds[run].d.snap.status != Running
    ensures forall run :: run in ps[j].worlds ==> run in ps[k].worlds && ps[k].worlds[run].d.snap.status != Running
  {
    hide Next, Started;
    var p, h := ps[k - 1], hs[k - 1];
    assert Possible(p, h) && ps[k] == After(p, h);
    forall run | run in ps[j].worlds ensures run in ps[k].worlds && ps[k].worlds[run].d.snap.status != Running {
      if h.Control? { ControlNeverRuns(p.worlds[run], run, h.op); }
      if h.PauseAll? { ControlNeverRuns(p.worlds[run], run, ShutdownStep().op); }
    }
  }

  lemma {:induction false} SavesDecide(d: Durable, ws: seq<Write>)
    requires d.snap.status != Running && forall w :: w in ws && w.Save? ==> w.run.status != Running
    ensures ApplyAll(d, ws).snap.status != Running
    decreases |ws|
  {
    if ws != [] {
      assert ws[0] in ws;
      SavesDecide(Apply(d, ws[0]), ws[1..]);
    }
  }

  /** No control call and no recovery sets a stopped or paused run going. */
  lemma ControlNeverRuns(w: World, run: string, op: Op)
    requires w.d.snap.status != Running && !op.Act? && !op.Load?
    ensures Next(w, run, Label(op, None)).d.snap.status != Running
  {
    hide AllResolved, FindAttempt, Passed;
    var ws := OpWrites(w, run, op);
    if op.Abandon? { AbandonPutsTouch(w.d.ledger, w.d.ledger); }
    forall write | write in ws && write.Save? ensures write.run.status != Running {
    }
    SavesDecide(w.d, ws);
  }

  lemma SuspendStops(w: World, run: string)
    ensures Next(w, run, ShutdownStep()).d.snap.status != Running
  {
    hide Inspect, Range;
    var d := w.d;
    if d.snap.status == Running {
      var first := UnknownPuts(d.ledger);
      UnknownPutsTouch(d.ledger);
      LedgerWritesKeepRun(d, first);
      SuspendSplit(d, w.nextId, PauseCause.Shutdown);
      var d1 := ApplyAll(d, first);
      LastSaveStays(d1, SuspendTail(d1, w.nextId, PauseCause.Shutdown));
      ApplyConcat(d, first, SuspendTail(d1, w.nextId, PauseCause.Shutdown));
    }
  }

  lemma LastSaveStays(d: Durable, ws: seq<Write>)
    requires (|ws| == 1 && ws[0].Save?) || (|ws| == 2 && ws[0].Append? && ws[1].Save?)
    ensures ApplyAll(d, ws).snap == ws[|ws| - 1].run
  {
    if |ws| == 1 {
      assert ws == [ws[0]];
      ApplyOne(d, ws[0]);
    } else {
      assert ws == [ws[0], ws[1]];
      ApplyTwo(d, ws[0], ws[1]);
    }
  }
}
