/** The image task queue with worker leases (core/domain/image_task.py). */
module ImageTasks {
  import opened Wrappers
  import opened Ordering

  datatype Status = Queued | Running | Succeeded | Failed | Interrupted

  datatype Task = Task(
    id: string,
    owner: string,
    submission: string,
    status: Status,
    createdAt: int,
    worker: Option<string>,
    leaseExpires: Option<int>)

  type Tasks = map<string, Task>

  const MAX_ACTIVE := 10

  predicate IsActive(t: Task) {
    t.status == Queued || t.status == Running
  }

  function Active(tasks: Tasks, owner: string): set<string> {
    set id | id in tasks && tasks[id].owner == owner && IsActive(tasks[id])
  }

  // ------------------------------------------------------------------- claim order

  /** (created_at, task_id) order. */
  predicate Earlier(a: Task, b: Task) {
    a.createdAt < b.createdAt || (a.createdAt == b.createdAt && StringLess(a.id, b.id))
  }

  predicate IsQueued(tasks: Tasks, id: string) {
    id in tasks && tasks[id].status == Queued
  }

  ghost predicate IsOldest(tasks: Tasks, id: string) {
    IsQueued(tasks, id) && forall other :: IsQueued(tasks, other) && other != id ==> Earlier(tasks[id], tasks[other])
  }

  /** Every task is stored under its own id. */
  ghost predicate Keyed(tasks: Tasks) {
    forall id :: id in tasks ==> tasks[id].id == id
  }

  // ------------------------------------------------------------------- operations

  datatype Op =
    | Create(task: Task)
    | Delete(id: string)
    | DeleteForRecord(id: string)
    | Claim(found: Option<string>, worker: string, lease: int)
    | Renew(id: string, worker: string, lease: int)
    | Finish(task: Task, worker: string)
    | Recover(now: int)

  predicate Holds(tasks: Tasks, id: string, worker: string) {
    id in tasks && tasks[id].status == Running && tasks[id].worker == Some(worker)
  }

  predicate Expired(t: Task, now: int) {
    t.status == Running && (t.leaseExpires == None || t.leaseExpires.value <= now)
  }

  function InterruptedTask(t: Task): Task {
    t.(status := Interrupted, worker := None, leaseExpires := None)
  }

  /** What a successful operation does to the store; `Claim` names the task it found. */
  function Apply(tasks: Tasks, op: Op): Tasks {
    match op
    case Create(t) => if t.id in tasks || |Active(tasks, t.owner)| >= MAX_ACTIVE then tasks else tasks[t.id := t]
    case Delete(id) => if id in tasks && !IsActive(tasks[id]) then tasks - {id} else tasks
    case DeleteForRecord(id) => tasks - {id}
    case Claim(found, worker, lease) =>
      if found.Some? && found.value in tasks
      then tasks[found.value := tasks[found.value].(status := Running, worker := Some(worker), leaseExpires := Some(lease))]
      else tasks
    case Renew(id, worker, lease) =>
      if Holds(tasks, id, worker) then tasks[id := tasks[id].(leaseExpires := Some(lease))] else tasks
    case Finish(t, worker) =>
      if Holds(tasks, t.id, worker) then tasks[t.id := t.(worker := None, leaseExpires := None)] else tasks
    case Recover(now) =>
      map id | id in tasks :: if Expired(tasks[id], now) then InterruptedTask(tasks[id]) else tasks[id]
  }

  /** A claim takes the oldest queued task, and finds none only if none is queued. */
  ghost predicate Enabled(tasks: Tasks, op: Op) {
    match op
    case Claim(Some(id), _, _) => IsOldest(tasks, id)
    case Claim(None, _, _) => forall id :: !IsQueued(tasks, id)
    case _ => true
  }

  // --------------------------------------------------------------------- the store

  datatype StoreError = NotFound | Conflict | TooMany

  class ImageTaskStore {
    var tasks: Tasks

    constructor ()
      ensures tasks == map[]
    {
      tasks := map[];
    }

    /** create: true when stored, false when the same submission is there already. */
    method Create(task: Task) returns (r: Result<bool, StoreError>)
      modifies this
      ensures tasks == Apply(old(tasks), Op.Create(task))
      ensures r == if task.id in old(tasks) then
                     if old(tasks)[task.id].owner != task.owner then Failure(NotFound)
                     else if old(tasks)[task.id].submission != task.submission then Failure(Conflict)
                     else Success(false)
                   else if |Active(old(tasks), task.owner)| >= MAX_ACTIVE then Failure(TooMany)
                   else Success(true)
    {
      if task.id in tasks {
        var previous := tasks[task.id];
        if previous.owner != task.owner { return Failure(NotFound); }
        if previous.submission != task.submission { return Failure(Conflict); }
        return Success(false);
      }
      var count := CountActive(task.owner);
      if count >= MAX_ACTIVE { return Failure(TooMany); }
      tasks := tasks[task.id := task];
      return Success(true);
    }

    method CountActive(owner: string) returns (count: nat)
      ensures count == |Active(tasks, owner)|
    {
      hide Active, IsActive;
      var left := tasks.Keys;
      ghost var seen: set<string> := {};
      count := 0;
      while left != {}
        invariant seen + left == tasks.Keys && seen !! left
        invariant count == |Active(tasks, owner) * seen|
        decreases |left|
      {
        var id :| id in left;
        OneMoreSeen(tasks, owner, seen, id);
        if tasks[id].owner == owner && IsActive(tasks[id]) { count := count + 1; }
        seen, left := seen + {id}, left - {id};
      }
      AllSeen(tasks, owner);
    }

    method Delete(id: string) returns (error: Option<StoreError>)
      modifies this
      ensures tasks == Apply(old(tasks), Op.Delete(id))
      ensures error == if id !in old(tasks) then Some(NotFound) else if IsActive(old(tasks)[id]) then Some(Conflict) else None
    {
      if id !in tasks { return Some(NotFound); }
      if IsActive(tasks[id]) { return Some(Conflict); }
      tasks := tasks - {id};
      return None;
    }

    method DeleteForRecord(id: string)
      modifies this
      ensures tasks == Apply(old(tasks), Op.DeleteForRecord(id))
    {
      tasks := tasks - {id};
    }

    /** The oldest queued task, if any. */
    method OldestQueued() returns (found: Option<string>)
      requires Keyed(tasks)
      ensures match found case Some(id) => IsOldest(tasks, id) case None => forall id :: !IsQueued(tasks, id)
    {
      var left := tasks.Keys;
      found := None;
      while left != {}
        invariant left <= tasks.Keys
        invariant found.Some? ==> found.value !in left && IsQueued(tasks, found.value)
        invariant forall id :: IsQueued(tasks, id) && id !in left && found != Some(id) ==>
                                 found.Some? && Earlier(tasks[found.value], tasks[id])
        decreases |left|
      {
        var id :| id in left;
        left := left - {id};
        if tasks[id].status == Queued {
          if found == None {
            found := Some(id);
          } else {
            StringTotal(id, found.value);
            if Earlier(tasks[id], tasks[found.value]) {
              forall other | IsQueued(tasks, other) && other !in left && other != id
                ensures Earlier(tasks[id], tasks[other])
              {
                if other != found.value { EarlierTransitive(tasks[id], tasks[found.value], tasks[other]); }
              }
              found := Some(id);
            }
          }
        }
      }
    }

    method Claim(worker: string, lease: int) returns (claimed: Option<Task>)
      requires Keyed(tasks)
      modifies this
      ensures var op := Op.Claim(if claimed.Some? then Some(claimed.value.id) else None, worker, lease);
              Enabled(old(tasks), op) && tasks == Apply(old(tasks), op)
      ensures claimed.Some? ==> claimed.value.id in tasks && claimed.value == tasks[claimed.value.id]
    {
      var found := OldestQueued();
      if found == None { return None; }
      var task := tasks[found.value].(status := Running, worker := Some(worker), leaseExpires := Some(lease));
      tasks := tasks[task.id := task];
      return Some(task);
    }

    method Renew(id: string, worker: string, lease: int) returns (renewed: bool)
      modifies this
      ensures tasks == Apply(old(tasks), Op.Renew(id, worker, lease))
      ensures renewed <==> Holds(old(tasks), id, worker)
    {
      if id !in tasks || tasks[id].status != Running || tasks[id].worker != Some(worker) { return false; }
      tasks := tasks[id := tasks[id].(leaseExpires := Some(lease))];
      return true;
    }

    method Finish(task: Task, worker: string) returns (finished: bool)
      modifies this
      ensures tasks == Apply(old(tasks), Op.Finish(task, worker))
      ensures finished <==> Holds(old(tasks), task.id, worker)
    {
      if task.id !in tasks || tasks[task.id].status != Running || tasks[task.id].worker != Some(worker) { return false; }
      tasks := tasks[task.id := task.(worker := None, leaseExpires := None)];
      return true;
    }

    method RecoverExpired(now: int)
      modifies this
      ensures tasks == Apply(old(tasks), Op.Recover(now))
    {
      var left := tasks.Keys;
      while left != {}
        invariant left <= tasks.Keys && tasks.Keys == old(tasks).Keys
        invariant forall id :: id in tasks ==>
                    tasks[id] == if id !in left && Expired(old(tasks)[id], now) then InterruptedTask(old(tasks)[id])
                                 else old(tasks)[id]
        decreases |left|
      {
        var id :| id in left;
        left := left - {id};
        if Expired(tasks[id], now) { tasks := tasks[id := InterruptedTask(tasks[id])]; }
      }
    }
  }

  lemma OneMoreSeen(tasks: Tasks, owner: string, seen: set<string>, id: string)
    requires id in tasks && id !in seen
    ensures |Active(tasks, owner) * (seen + {id})|
            == |Active(tasks, owner) * seen| + if tasks[id].owner == owner && IsActive(tasks[id]) then 1 else 0
  {
    hide IsActive;
    var active := Active(tasks, owner);
    if id in active {
      assert active * (seen + {id}) == active * seen + {id};
    } else {
      assert active * (seen + {id}) == active * seen;
    }
  }

  lemma AllSeen(tasks: Tasks, owner: string)
    ensures Active(tasks, owner) * tasks.Keys == Active(tasks, owner)
  {
  }

  lemma EarlierTransitive(a: Task, b: Task, c: Task)
    requires Earlier(a, b) && Earlier(b, c)
    ensures Earlier(a, c)
  {
    if a.createdAt == b.createdAt == c.createdAt { StringTransitive(a.id, b.id, c.id); }
  }

  // ------------------------------------------------------------------- whole runs

  /** A run of the store: each operation is applied to the tasks before it. */
  ghost predicate IsRun(states: seq<Tasks>, ops: seq<Op>) {
    && |states| == |ops| + 1 && states[0] == map[]
    && forall i {:trigger ops[i]} :: 0 <= i < |ops| ==> Enabled(states[i], ops[i]) && states[i + 1] == Apply(states[i], ops[i])
  }

  /** Every state of a run stores each task under its own id, as claiming asks. */
  lemma {:induction false} RunsAreKeyed(states: seq<Tasks>, ops: seq<Op>, k: nat)
    requires IsRun(states, ops) && k < |states|
    ensures Keyed(states[k])
    decreases k
  {
    if k > 0 {
      RunsAreKeyed(states, ops, k - 1);
      assert states[k] == Apply(states[k - 1], ops[k - 1]);
    }
  }

  /** Workers finish tasks with these statuses only; `finish` itself accepts any. */
  predicate FinishesWith(ops: seq<Op>, statuses: set<Status>) {
    forall i :: 0 <= i < |ops| && ops[i].Finish? ==> ops[i].task.status in statuses
  }

  /** A task that a worker finishes without ending it stays with its owner. */
  predicate KeepsOwners(states: seq<Tasks>, ops: seq<Op>)
    requires |states| == |ops| + 1
  {
    forall i :: 0 <= i < |ops| ==> KeepsOwner(states[i], ops[i])
  }

  predicate KeepsOwner(tasks: Tasks, op: Op) {
    op.Finish? && Holds(tasks, op.task.id, op.worker) && IsActive(op.task) ==> op.task.owner == tasks[op.task.id].owner
  }

  function ClaimsOf(ops: seq<Op>, id: string, k: nat): nat
    requires k <= |ops|
  {
    if k == 0 then 0
    else ClaimsOf(ops, id, k - 1) + if ops[k - 1].Claim? && ops[k - 1].found == Some(id) then 1 else 0
  }

  /** How often the task id was really created. */
  ghost function CreationsOf(states: seq<Tasks>, ops: seq<Op>, id: string, k: nat): nat
    requires k <= |ops| && |states| == |ops| + 1
  {
    if k == 0 then 0
    else CreationsOf(states, ops, id, k - 1) + if id !in states[k - 1] && id in states[k] then 1 else 0
  }

  /** A task is claimed at most once between its creation and its removal: never more often than
      it was created, and a task still queued has a claim to spare. */
  lemma {:induction false} ClaimsNeedCreations(states: seq<Tasks>, ops: seq<Op>, statuses: set<Status>, id: string, k: nat)
    requires IsRun(states, ops) && FinishesWith(ops, statuses) && Queued !in statuses && k <= |ops|
    ensures ClaimsOf(ops, id, k) + (if IsQueued(states[k], id) then 1 else 0) <= CreationsOf(states, ops, id, k)
    decreases k
  {
    if k > 0 {
      ClaimsNeedCreations(states, ops, statuses, id, k - 1);
      OneOp(states[k - 1], ops[k - 1], id);
    }
  }

  lemma OneOp(tasks: Tasks, op: Op, id: string)
    requires Enabled(tasks, op) && (op.Finish? ==> op.task.status != Queued)
    ensures var after := Apply(tasks, op);
            && (IsQueued(after, id) ==> IsQueued(tasks, id) || (id !in tasks && id in after))
            && (op.Claim? && op.found == Some(id) ==> IsQueued(tasks, id) && !IsQueued(after, id))
  {
  }

  /** No owner ever has more than ten queued or running tasks, as long as workers hand no
      unfinished task to another owner. */
  lemma {:induction false} ActiveIsBounded(states: seq<Tasks>, ops: seq<Op>, owner: string, k: nat)
    requires IsRun(states, ops) && KeepsOwners(states, ops) && k <= |ops|
    ensures |Active(states[k], owner)| <= MAX_ACTIVE
    decreases k
  {
    if k > 0 {
      ActiveIsBounded(states, ops, owner, k - 1);
      ActiveAfter(states[k - 1], ops[k - 1], owner);
    } else {
      assert Active(states[0], owner) == {};
    }
  }

  lemma ActiveAfter(tasks: Tasks, op: Op, owner: string)
    requires Enabled(tasks, op) && KeepsOwner(tasks, op) && |Active(tasks, owner)| <= MAX_ACTIVE
    ensures |Active(Apply(tasks, op), owner)| <= MAX_ACTIVE
  {
    var before, after := Active(tasks, owner), Active(Apply(tasks, op), owner);
    if op.Create? && op.task.owner == owner && op.task.id !in tasks && |before| < MAX_ACTIVE {
      assert after <= before + {op.task.id};
      Subset(after, before + {op.task.id});
    } else {
      assert after <= before;
      Subset(after, before);
    }
  }

  lemma Subset<T>(a: set<T>, b: set<T>)
    requires a <= b
    ensures |a| <= |b|
  {
    assert b == a + (b - a);
  }

  /** A worker whose lease was recovered can neither renew nor finish the task: until the task is
      removed, nobody holds it any more. */
  lemma {:induction false} RecoveredIsLost(states: seq<Tasks>, ops: seq<Op>, id: string, j: nat, k: nat)
    requires IsRun(states, ops) && j < k <= |ops|
    requires ops[j].Recover? && id in states[j] && Expired(states[j][id], ops[j].now)
    requires forall i :: j < i <= k ==> id in states[i]
    ensures forall worker :: !Holds(states[k], id, worker)
    ensures !IsActive(states[k][id])
    decreases k
  {
    if k == j + 1 {
      assert ops[j] == ops[k - 1];
    } else {
      RecoveredIsLost(states, ops, id, j, k - 1);
      FinalStays(states[k - 1], ops[k - 1], id);
    }
  }

  lemma FinalStays(tasks: Tasks, op: Op, id: string)
    requires Enabled(tasks, op)
    requires id in tasks && !IsActive(tasks[id]) && id in Apply(tasks, op)
    ensures Apply(tasks, op)[id] == tasks[id]
  {
  }

  /** Claims come in order: of two tasks queued together, the older is claimed first. */
  lemma {:induction false} OlderIsClaimedFirst(states: seq<Tasks>, ops: seq<Op>, old_: string, young: string, j: nat, k: nat)
    requires IsRun(states, ops) && j <= k < |ops|
    requires IsQueued(states[j], old_) && IsQueued(states[j], young) && Earlier(states[j][old_], states[j][young])
    requires forall i :: j <= i <= k ==> old_ in states[i] && young in states[i]
    requires forall i :: j <= i < k ==> !(ops[i].Claim? && ops[i].found == Some(old_))
    requires forall i :: j <= i < k ==> !(ops[i].Claim? && ops[i].found == Some(young))
    requires ops[k].Claim?
    ensures ops[k].found != Some(young)
  {
    StillQueued(states, ops, old_, j, k);
    StillQueued(states, ops, young, j, k);
    var a, b := states[k][old_], states[k][young];
    if ops[k].found == Some(young) && old_ != young {
      assert Enabled(states[k], ops[k]) && Earlier(b, a);
    }
    StringTotal(a.id, b.id);
  }

  lemma {:induction false} StillQueued(states: seq<Tasks>, ops: seq<Op>, id: string, j: nat, k: nat)
    requires IsRun(states, ops) && j <= k <= |ops|
    requires IsQueued(states[j], id)
    requires forall i :: j <= i <= k ==> id in states[i]
    requires forall i :: j <= i < k ==> !(ops[i].Claim? && ops[i].found == Some(id))
    ensures states[k][id] == states[j][id]
    decreases k
  {
    if k > j {
      StillQueued(states, ops, id, j, k - 1);
      var tasks, op := states[k - 1], ops[k - 1];
      assert Apply(tasks, op)[id] == tasks[id];
    }
  }

  // ----------------------------------------------------- which statuses break what

  /** A task is claimed at most once between its creation and its removal, never more often than
      it was created, exactly when no worker finishes a task as QUEUED. */
  lemma ClaimedAtMostOnce(statuses: set<Status>)
    ensures (forall states: seq<Tasks>, ops: seq<Op>, id: string, k: nat :: IsRun(states, ops) && FinishesWith(ops, statuses) && k <= |ops| ==>
               ClaimsOf(ops, id, k) <= CreationsOf(states, ops, id, k))
            <==> Queued !in statuses
  {
    if Queued in statuses {
      var t := Task("t", "owner", "", Queued, 0, None, None);
      var states, ops := FinishingAsQueuedClaimsTwice(t);
      assert FinishesWith(ops, statuses);
    } else {
      forall states: seq<Tasks>, ops: seq<Op>, id: string, k: nat | IsRun(states, ops) && FinishesWith(ops, statuses) && k <= |ops|
        ensures ClaimsOf(ops, id, k) <= CreationsOf(states, ops, id, k)
      {
        ClaimsNeedCreations(states, ops, statuses, id, k);
      }
    }
  }

  /** A worker that finishes its task as QUEUED puts it back in line, and it is claimed again. */
  lemma FinishingAsQueuedClaimsTwice(t: Task) returns (states: seq<Tasks>, ops: seq<Op>)
    requires t.status == Queued
    ensures ops == [Create(t), Claim(Some(t.id), "a", 1), Finish(t, "a"), Claim(Some(t.id), "b", 2)]
    ensures IsRun(states, ops) && ClaimsOf(ops, t.id, 4) == 2 && CreationsOf(states, ops, t.id, 4) == 1
  {
    ops := [Create(t), Claim(Some(t.id), "a", 1), Finish(t, "a"), Claim(Some(t.id), "b", 2)];
    var s1 := Apply(map[], ops[0]);
    var s2 := Apply(s1, ops[1]);
    var s3 := Apply(s2, ops[2]);
    var s4 := Apply(s3, ops[3]);
    assert Active(map[], t.owner) == {};
    assert s1 == map[t.id := t];
    assert s3 == map[t.id := t.(worker := None, leaseExpires := None)];
    states := [map[], s1, s2, s3, s4];
    assert IsRun(states, ops);
    assert t.id !in states[0] && t.id in states[1] && t.id in states[2] && t.id in states[3] && t.id in states[4];
    assert CreationsOf(states, ops, t.id, 0) == 0;
    Counts(states, ops, t.id, 1);
    Counts(states, ops, t.id, 2);
    Counts(states, ops, t.id, 3);
    Counts(states, ops, t.id, 4);
  }

  lemma Counts(states: seq<Tasks>, ops: seq<Op>, id: string, k: nat)
    requires 0 < k <= |ops| && |states| == |ops| + 1
    ensures ClaimsOf(ops, id, k) == ClaimsOf(ops, id, k - 1) + if ops[k - 1].Claim? && ops[k - 1].found == Some(id) then 1 else 0
    ensures CreationsOf(states, ops, id, k)
            == CreationsOf(states, ops, id, k - 1) + if id !in states[k - 1] && id in states[k] then 1 else 0
  {
  }

  /** Whatever owners workers write, the bound of ten holds exactly when every status they finish
      with is final. */
  lemma BoundNeedsFinalStatuses(statuses: set<Status>)
    ensures (forall states: seq<Tasks>, ops: seq<Op>, owner: string, k: nat :: IsRun(states, ops) && FinishesWith(ops, statuses) && k <= |ops| ==>
               |Active(states[k], owner)| <= MAX_ACTIVE)
            <==> Queued !in statuses && Running !in statuses
  {
    if Queued in statuses || Running in statuses {
      var status := if Queued in statuses then Queued else Running;
      var states, ops := HandedOver(status);
      assert FinishesWith(ops, statuses);
      assert IsRun(states, ops) && |Active(states[|ops|], "a")| > MAX_ACTIVE;
    } else {
      forall states: seq<Tasks>, ops: seq<Op>, owner: string, k: nat | IsRun(states, ops) && FinishesWith(ops, statuses) && k <= |ops|
        ensures |Active(states[k], owner)| <= MAX_ACTIVE
      {
        forall i | 0 <= i < |ops| ensures KeepsOwner(states[i], ops[i]) {
          assert ops[i].Finish? ==> ops[i].task.status in statuses;
        }
        ActiveIsBounded(states, ops, owner, k);
      }
    }
  }

  function Name(n: nat): (s: string)
    ensures |s| == n
  {
    if n == 0 then "" else "x" + Name(n - 1)
  }

  function Waiting(n: nat, owner: string): Task {
    Task(Name(n), owner, "", Queued, n, None, None)
  }

  /** The oldest task, of owner b, and `n` tasks of owner a. */
  ghost predicate Crowd(tasks: Tasks, n: nat) {
    && "" in tasks && tasks[""] == Waiting(0, "b")
    && (forall id :: id in tasks ==> |id| <= n && (id != "" ==> tasks[id].createdAt > 0))
    && |Active(tasks, "a")| == n
  }

  lemma {:induction false} Crowded(n: nat) returns (states: seq<Tasks>, ops: seq<Op>)
    requires n <= MAX_ACTIVE
    ensures IsRun(states, ops) && Crowd(states[|ops|], n)
    ensures forall op: Op :: op in ops ==> op.Create?
    decreases n
  {
    hide Active, Crowd;
    if n == 0 {
      var op := Create(Waiting(0, "b"));
      FirstTask();
      states, ops := [map[], Apply(map[], op)], [op];
    } else {
      states, ops := Crowded(n - 1);
      var tasks, op := states[|ops|], Create(Waiting(n, "a"));
      OneMoreTask(tasks, n);
      states, ops := states + [Apply(tasks, op)], ops + [op];
    }
  }

  lemma FirstTask()
    ensures Crowd(Apply(map[], Create(Waiting(0, "b"))), 0)
  {
    var after := Apply(map[], Create(Waiting(0, "b")));
    assert Active(map[], "b") == {};
    assert after == map["" := Waiting(0, "b")];
    assert Active(after, "a") == {};
  }

  lemma OneMoreTask(tasks: Tasks, n: nat)
    requires 0 < n <= MAX_ACTIVE && Crowd(tasks, n - 1)
    ensures Crowd(Apply(tasks, Create(Waiting(n, "a"))), n)
  {
    var t := Waiting(n, "a");
    assert t.id !in tasks;
    assert Active(tasks[t.id := t], "a") == Active(tasks, "a") + {t.id};
  }

  /** The oldest task is claimed, and finished as an unfinished task of owner a. */
  lemma HandedOver(status: Status) returns (states: seq<Tasks>, ops: seq<Op>)
    requires status == Queued || status == Running
    ensures IsRun(states, ops) && FinishesWith(ops, {status}) && |Active(states[|ops|], "a")| > MAX_ACTIVE
  {
    hide Active;
    states, ops := Crowded(MAX_ACTIVE);
    var tasks := states[|ops|];
    var claim, finish := Claim(Some(""), "w", 1), Finish(Waiting(0, "a").(status := status), "w");
    HandOver(tasks, status);
    var claimed := Apply(tasks, claim);
    states, ops := states + [claimed, Apply(claimed, finish)], ops + [claim, finish];
  }

  lemma HandOver(tasks: Tasks, status: Status)
    requires Crowd(tasks, MAX_ACTIVE) && (status == Queued || status == Running)
    ensures var claim, finish := Claim(Some(""), "w", 1), Finish(Waiting(0, "a").(status := status), "w");
            Enabled(tasks, claim) && |Active(Apply(Apply(tasks, claim), finish), "a")| > MAX_ACTIVE
  {
    var claim, finish := Claim(Some(""), "w", 1), Finish(Waiting(0, "a").(status := status), "w");
    var after := Apply(Apply(tasks, claim), finish);
    assert after == tasks["" := Waiting(0, "a").(status := status)];
    assert Active(after, "a") == Active(tasks, "a") + {""};
  }

  // ------------------------------------------------------------------------- leases

  /** A lease protects the worker's hold on its task for just as long as it runs: whether it was
      given by a claim or a renewal, recovery leaves the task with the worker before its end, and
      interrupts it from then on. */
  lemma LeaseProtects(tasks: Tasks, id: string, worker: string, lease: int, now: int)
    ensures IsQueued(tasks, id) ==>
              Holds(Apply(Apply(tasks, Op.Claim(Some(id), worker, lease)), Recover(now)), id, worker) == (now < lease)
    ensures Holds(tasks, id, worker) ==>
              Holds(Apply(Apply(tasks, Op.Renew(id, worker, lease)), Recover(now)), id, worker) == (now < lease)
    ensures IsQueued(tasks, id) && lease <= now ==>
              var after := Apply(Apply(tasks, Op.Claim(Some(id), worker, lease)), Recover(now));
              after[id].status == Interrupted && after[id].worker == None && after[id].leaseExpires == None
  {
  }

  /** Recovery touches no task that is not running, and none whose lease is still running. */
  lemma RecoverySpares(tasks: Tasks, now: int, id: string)
    requires id in tasks
    ensures var after := Apply(tasks, Recover(now));
            && after.Keys == tasks.Keys
            && (after[id] == tasks[id]
                <==> tasks[id].status != Running || (tasks[id].leaseExpires.Some? && now < tasks[id].leaseExpires.value))
  {
  }

  /** What a worker hands in is what is stored, without its hold; and nobody else's task changes. */
  lemma FinishStores(tasks: Tasks, task: Task, worker: string)
    requires Holds(tasks, task.id, worker)
    ensures var after := Apply(tasks, Op.Finish(task, worker));
            && after.Keys == tasks.Keys && after[task.id].status == task.status && after[task.id].owner == task.owner
            && after[task.id].submission == task.submission && after[task.id].worker == None
            && (forall w :: !Holds(after, task.id, w))
            && (forall other :: other in tasks && other != task.id ==> after[other] == tasks[other])
  {
  }

  /** A task that is created is stored as it is given, next to the others, and once only. */
  lemma CreateStores(tasks: Tasks, task: Task)
    requires task.id !in tasks && |Active(tasks, task.owner)| < MAX_ACTIVE
    ensures var after := Apply(tasks, Op.Create(task));
            && task.id in after && after[task.id] == task && after.Keys == tasks.Keys + {task.id}
            && (forall other :: other in tasks ==> after[other] == tasks[other])
            && Apply(after, Op.Create(task)) == after
  {
  }
}
