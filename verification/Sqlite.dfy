/** Nested SQLite transactions and the migration runner (infra/sqlite.py:132-220). A database is
    the list of writes committed to it. */
module Sqlite {
  // ------------------------------------------------------------------- connections

  datatype Command<W> =
    | Begin | Savepoint | Put(write: W) | RollbackTo | Release | Commit | Rollback

  /** A connection: what is committed, and inside a transaction the working copy with the
      copies remembered by open savepoints, innermost last. */
  datatype Conn<W> = Conn(db: seq<W>, open: bool, working: seq<W>, saved: seq<seq<W>>)

  function Idle<W>(db: seq<W>): Conn<W> {
    Conn(db, false, db, [])
  }

  function Run<W>(c: Conn<W>, command: Command<W>): Conn<W> {
    match command
    case Begin => Conn(c.db, true, c.db, [])
    case Savepoint => c.(saved := c.saved + [c.working])
    case Put(w) => if c.open then c.(working := c.working + [w]) else Idle(c.db + [w])
    case RollbackTo => if c.saved == [] then c else c.(working := c.saved[|c.saved| - 1])
    case Release => if c.saved == [] then c else c.(saved := c.saved[..|c.saved| - 1])
    case Commit => Idle(c.working)
    case Rollback => Idle(c.db)
  }

  function RunAll<W>(c: Conn<W>, commands: seq<Command<W>>): Conn<W>
    decreases |commands|
  {
    if commands == [] then c else RunAll(Run(c, commands[0]), commands[1..])
  }

  lemma {:induction false} RunConcat<W>(c: Conn<W>, a: seq<Command<W>>, b: seq<Command<W>>)
    ensures RunAll(c, a + b) == RunAll(RunAll(c, a), b)
    decreases |a|
  {
    if a == [] {
      assert a + b == b;
    } else {
      RunConcat(Run(c, a[0]), a[1..], b);
      assert (a + b)[1..] == a[1..] + b;
    }
  }

  // ------------------------------------------------------------------------ programs

  /** A program of writes, raised failures, `with sqlite_transaction` blocks and try blocks that
      catch what is raised inside them. */
  datatype Stmt<W> =
    | Write(write: W)
    | Raise
    | Transaction(body: seq<Stmt<W>>)
    | Try(body: seq<Stmt<W>>)

  /** The commands a program issues on a connection, and whether a failure leaves it. */
  function Issue<W>(s: Stmt<W>, nested: bool): (seq<Command<W>>, bool) {
    match s
    case Write(w) => ([Put(w)], false)
    case Raise => ([], true)
    case Try(body) => (IssueAll(body, nested).0, false)
    case Transaction(body) =>
      var (inner, raised) := IssueAll(body, true);
      if nested then ([Savepoint] + inner + (if raised then [RollbackTo, Release] else [Release]), raised)
      else ([Begin] + inner + (if raised then [Rollback] else [Commit]), raised)
  }

  function IssueAll<W>(body: seq<Stmt<W>>, nested: bool): (seq<Command<W>>, bool) {
    if body == [] then ([], false)
    else
      var (first, raised) := Issue(body[0], nested);
      if raised then (first, true)
      else
        var (rest, later) := IssueAll(body[1..], nested);
        (first + rest, later)
  }

  /** The reference: the writes of the blocks that exited normally, together with all the blocks
      around them, in order. */
  function Kept<W>(s: Stmt<W>): (seq<W>, bool) {
    match s
    case Write(w) => ([w], false)
    case Raise => ([], true)
    case Try(body) => (KeptAll(body).0, false)
    case Transaction(body) => if KeptAll(body).1 then ([], true) else (KeptAll(body).0, false)
  }

  function KeptAll<W>(body: seq<Stmt<W>>): (seq<W>, bool) {
    if body == [] then ([], false)
    else
      var (first, raised) := Kept(body[0]);
      if raised then (first, true)
      else
        var (rest, later) := KeptAll(body[1..]);
        (first + rest, later)
  }

  /** Inside an open transaction a program changes the working copy by exactly what is kept. */
  lemma {:induction false} NestedIsKept<W>(c: Conn<W>, s: Stmt<W>)
    requires c.open
    ensures Issue(s, true).1 == Kept(s).1
    ensures RunAll(c, Issue(s, true).0) == c.(working := c.working + Kept(s).0)
    decreases s
  {
    match s
    case Write(w) => assert [Put(w)][1..] == [];
    case Raise => assert c.working + [] == c.working;
    case Try(body) => NestedAllIsKept(c, body);
    case Transaction(body) =>
      var inner, raised := IssueAll(body, true).0, IssueAll(body, true).1;
      var marked := c.(saved := c.saved + [c.working]);
      NestedAllIsKept(marked, body);
      var done := marked.(working := c.working + KeptAll(body).0);
      BlockRuns(c, inner, if raised then [RollbackTo, Release] else [Release]);
      LeaveBlock(c, done, raised);
      assert c.working + [] == c.working;
  }

  lemma OneCommand<W>(command: Command<W>)
    ensures forall c: Conn<W> :: RunAll(c, [command]) == Run(c, command)
  {
    var none: seq<Command<W>> := [];
    assert [command][1..] == none;
  }

  lemma BlockRuns<W>(c: Conn<W>, inner: seq<Command<W>>, exit: seq<Command<W>>)
    requires c.open
    ensures RunAll(c, [Savepoint] + inner + exit) == RunAll(RunAll(c.(saved := c.saved + [c.working]), inner), exit)
  {
    assert [Savepoint] + inner + exit == [Savepoint] + (inner + exit);
    RunConcat(c, [Savepoint], inner + exit);
    OneCommand<W>(Savepoint);
    RunConcat(c.(saved := c.saved + [c.working]), inner, exit);
  }

  lemma LeaveBlock<W>(c: Conn<W>, done: Conn<W>, raised: bool)
    requires c.open && done == c.(saved := c.saved + [c.working], working := done.working)
    ensures RunAll(done, if raised then [RollbackTo, Release] else [Release])
            == if raised then c else c.(working := done.working)
  {
    var release, rollback: Command<W> := Release, RollbackTo;
    OneCommand(release);
    assert [rollback, release][1..] == [release];
    assert (c.saved + [c.working])[..|c.saved|] == c.saved;
  }

  lemma {:induction false} NestedAllIsKept<W>(c: Conn<W>, body: seq<Stmt<W>>)
    requires c.open
    ensures IssueAll(body, true).1 == KeptAll(body).1
    ensures RunAll(c, IssueAll(body, true).0) == c.(working := c.working + KeptAll(body).0)
    decreases body
  {
    if body == [] {
      assert c.working + [] == c.working;
    } else {
      var first, raised := Issue(body[0], true).0, Issue(body[0], true).1;
      NestedIsKept(c, body[0]);
      if !raised {
        var mid := c.(working := c.working + Kept(body[0]).0);
        NestedAllIsKept(mid, body[1..]);
        RunConcat(c, first, IssueAll(body[1..], true).0);
        assert c.working + Kept(body[0]).0 + KeptAll(body[1..]).0 == c.working + (Kept(body[0]).0 + KeptAll(body[1..]).0);
      }
    }
  }

  /** A whole program on an idle connection leaves it idle, and the database with exactly the
      writes kept, whatever was raised or caught where. */
  lemma {:induction false} ProgramIsKept<W>(db: seq<W>, body: seq<Stmt<W>>)
    ensures IssueAll(body, false).1 == KeptAll(body).1
    ensures RunAll(Idle(db), IssueAll(body, false).0) == Idle(db + KeptAll(body).0)
    decreases body
  {
    if body == [] {
      assert db + [] == db;
    } else {
      var first, raised := Issue(body[0], false).0, Issue(body[0], false).1;
      StatementIsKept(db, body[0]);
      if !raised {
        var mid := db + Kept(body[0]).0;
        ProgramIsKept(mid, body[1..]);
        RunConcat(Idle(db), first, IssueAll(body[1..], false).0);
        assert mid + KeptAll(body[1..]).0 == db + (Kept(body[0]).0 + KeptAll(body[1..]).0);
      }
    }
  }

  lemma {:induction false} StatementIsKept<W>(db: seq<W>, s: Stmt<W>)
    ensures Issue(s, false).1 == Kept(s).1
    ensures RunAll(Idle(db), Issue(s, false).0) == Idle(db + Kept(s).0)
    decreases s
  {
    match s
    case Write(w) => assert [Put(w)][1..] == [];
    case Raise => assert db + [] == db;
    case Try(body) => ProgramIsKept(db, body);
    case Transaction(body) =>
      var inner, raised := IssueAll(body, true).0, IssueAll(body, true).1;
      var begun := Conn(db, true, db, []);
      NestedAllIsKept(begun, body);
      OutermostRuns(db, inner, if raised then Rollback else Commit);
      assert db + [] == db;
  }

  lemma OutermostRuns<W>(db: seq<W>, inner: seq<Command<W>>, exit: Command<W>)
    ensures RunAll(Idle(db), [Begin] + inner + [exit]) == Run(RunAll(Conn(db, true, db, []), inner), exit)
  {
    assert [Begin] + inner + [exit] == [Begin] + (inner + [exit]);
    RunConcat(Idle(db), [Begin], inner + [exit]);
    OneCommand<W>(Begin);
    RunConcat(Conn(db, true, db, []), inner, [exit]);
    OneCommand(exit);
  }

  /** What is never issued inside a transaction: only its own end touches the database. */
  predicate StaysInside<W>(command: Command<W>) {
    command.Savepoint? || command.Put? || command.RollbackTo? || command.Release?
  }

  lemma {:induction false} NestedStaysInside<W>(s: Stmt<W>)
    ensures forall command :: command in Issue(s, true).0 ==> StaysInside(command)
    decreases s
  {
    match s
    case Write(_) =>
    case Raise =>
    case Try(body) => NestedAllStaysInside(body);
    case Transaction(body) => NestedAllStaysInside(body);
  }

  lemma {:induction false} NestedAllStaysInside<W>(body: seq<Stmt<W>>)
    ensures forall command :: command in IssueAll(body, true).0 ==> StaysInside(command)
    decreases body
  {
    if body != [] {
      NestedStaysInside(body[0]);
      NestedAllStaysInside(body[1..]);
    }
  }

  lemma {:induction false} InsideKeepsDb<W>(c: Conn<W>, commands: seq<Command<W>>)
    requires c.open && forall command :: command in commands ==> StaysInside(command)
    ensures RunAll(c, commands).db == c.db && RunAll(c, commands).open
    decreases |commands|
  {
    if commands != [] {
      assert commands[0] in commands;
      InsideKeepsDb(Run(c, commands[0]), commands[1..]);
    }
  }

  /** A crash inside an outermost transaction loses all of it; after its last command, nothing. */
  lemma CrashIsAtomic<W>(db: seq<W>, body: seq<Stmt<W>>, k: nat)
    requires k <= |Issue(Transaction(body), false).0|
    ensures var commands := Issue(Transaction(body), false).0;
            RunAll(Idle(db), commands[..k]).db == if k == |commands| then db + Kept(Transaction(body)).0 else db
  {
    var commands := Issue(Transaction(body), false).0;
    if k == |commands| {
      StatementIsKept(db, Transaction(body));
      assert commands[..k] == commands;
    } else if k > 0 {
      var inner := IssueAll(body, true).0;
      assert commands[..k] == [Begin] + inner[..k - 1];
      NestedAllStaysInside(body);
      forall command | command in inner[..k - 1] ensures StaysInside(command) { assert command in inner; }
      InsideKeepsDb(Conn(db, true, db, []), inner[..k - 1]);
      RunConcat(Idle(db), [Begin], inner[..k - 1]);
      OneCommand<W>(Begin);
    }
  }

  // ------------------------------------------------------------------- the connection

  /** The connection object the context manager works on. */
  class Connection<W> {
    var db: seq<W>
    var inTransaction: bool
    var working: seq<W>
    var saved: seq<seq<W>>

    function Value(): Conn<W>
      reads this
    {
      Conn(db, inTransaction, working, saved)
    }

    constructor (db: seq<W>)
      ensures Value() == Idle(db)
    {
      this.db, inTransaction, working, saved := db, false, db, [];
    }

    method Execute(command: Command<W>)
      modifies this
      ensures Value() == Run(old(Value()), command)
    {
      match command
      case Begin => inTransaction, working, saved := true, db, [];
      case Savepoint => saved := saved + [working];
      case Put(w) =>
        if inTransaction {
          working := working + [w];
        } else {
          db := db + [w];
          working, saved := db, [];
        }
      case RollbackTo => if saved != [] { working := saved[|saved| - 1]; }
      case Release => if saved != [] { saved := saved[..|saved| - 1]; }
      case Commit =>
        db := working;
        inTransaction, saved := false, [];
      case Rollback =>
        working := db;
        inTransaction, saved := false, [];
    }

    /** sqlite_transaction around a body: a savepoint inside an open transaction, else a
        transaction of its own; a failure is undone and raised again. */
    method Transaction(body: seq<Stmt<W>>) returns (raised: bool)
      modifies this
      ensures Value() == RunAll(old(Value()), Issue(Stmt.Transaction(body), old(inTransaction)).0)
      ensures raised == Issue(Stmt.Transaction(body), old(inTransaction)).1
      ensures inTransaction == old(inTransaction)
      decreases body, 1
    {
      ghost var c := Value();
      ghost var inner := IssueAll(body, true).0;
      NestedAllStaysInside(body);
      if inTransaction {
        Execute(Savepoint);
        raised := Perform(body);
        InsideKeepsDb(c.(saved := c.saved + [c.working]), inner);
        BlockRuns(c, inner, if raised then [RollbackTo, Release] else [Release]);
        ghost var done := Value();
        if raised { Execute(RollbackTo); }
        Execute(Release);
        LastCommands(done);
      } else {
        BeginFromIdle(c, inner, if IssueAll(body, true).1 then Rollback else Commit);
        Execute(Begin);
        raised := Perform(body);
        if raised { Execute(Rollback); } else { Execute(Commit); }
      }
    }

    /** The statements of a block in order, up to the first failure that leaves it. */
    method Perform(body: seq<Stmt<W>>) returns (raised: bool)
      modifies this
      ensures Value() == RunAll(old(Value()), IssueAll(body, old(inTransaction)).0)
      ensures raised == IssueAll(body, old(inTransaction)).1
      ensures inTransaction == old(inTransaction)
      decreases body, 0
    {
      if body == [] { return false; }
      ghost var c := Value();
      var s := body[0];
      ghost var first := Issue(s, inTransaction).0;
      ghost var rest := IssueAll(body[1..], inTransaction).0;
      RunConcat(c, first, rest);
      match s {
        case Write(w) =>
          Execute(Put(w));
          assert [Put(w)][1..] == [];
          raised := false;
        case Raise => raised := true;
        case Try(inner) =>
          var _ := Perform(inner);
          raised := false;
        case Transaction(inner) => raised := Transaction(inner);
      }
      if !raised { raised := Perform(body[1..]); }
    }
  }

  lemma LastCommands<W>(c: Conn<W>)
    ensures RunAll(c, [Release]) == Run(c, Release)
    ensures RunAll(c, [RollbackTo, Release]) == Run(Run(c, RollbackTo), Release)
  {
    var release, rollback: Command<W> := Release, RollbackTo;
    OneCommand(release);
    assert [rollback, release][1..] == [release];
  }

  lemma BeginFromIdle<W>(c: Conn<W>, inner: seq<Command<W>>, exit: Command<W>)
    ensures RunAll(c, [Begin] + inner + [exit]) == Run(RunAll(Conn(c.db, true, c.db, []), inner), exit)
  {
    assert [Begin] + inner + [exit] == [Begin] + (inner + [exit]);
    RunConcat(c, [Begin], inner + [exit]);
    OneCommand<W>(Begin);
    RunConcat(Conn(c.db, true, c.db, []), inner, [exit]);
    OneCommand(exit);
  }

  // ---------------------------------------------------------------------- migrations

  /** What a migration leaves in the database: its operation's effect and its record. */
  datatype Entry = Applied(version: nat) | Recorded(version: nat)

  /** The body of the transaction around one migration. */
  function MigrationBody(version: nat, db: seq<Entry>): seq<Stmt<Entry>> {
    if Recorded(version) in db then [] else [Write(Applied(version)), Write(Recorded(version))]
  }

  /** The database after a complete run. */
  function Migrated(versions: seq<nat>, db: seq<Entry>): seq<Entry>
    decreases |versions|
  {
    if versions == [] then db
    else
      var commands := Issue(Transaction(MigrationBody(versions[0], db)), false).0;
      Migrated(versions[1..], RunAll(Idle(db), commands).db)
  }

  /** The database after a run that crashes once it has issued `k` commands. */
  function CutOff(versions: seq<nat>, db: seq<Entry>, k: nat): seq<Entry>
    decreases |versions|
  {
    if versions == [] then db
    else
      var commands := Issue(Transaction(MigrationBody(versions[0], db)), false).0;
      if k < |commands| then RunAll(Idle(db), commands[..k]).db
      else CutOff(versions[1..], RunAll(Idle(db), commands).db, k - |commands|)
  }

  function CutOffRuns(versions: seq<nat>, db: seq<Entry>, cuts: seq<nat>): seq<Entry>
    decreases |cuts|
  {
    if cuts == [] then db else CutOffRuns(versions, CutOff(versions, db, cuts[0]), cuts[1..])
  }

  /** The versions a database has no record of, in order. */
  function Missing(versions: seq<nat>, db: seq<Entry>): (missing: seq<nat>)
    ensures forall v :: v in missing <==> v in versions && Recorded(v) !in db
  {
    if versions == [] then []
    else (if Recorded(versions[0]) in db then [] else [versions[0]]) + Missing(versions[1..], db)
  }

  /** Each version applied and recorded once, in order. */
  function Pairs(versions: seq<nat>): (entries: seq<Entry>)
    ensures forall v :: Recorded(v) in entries <==> v in versions
  {
    if versions == [] then [] else [Applied(versions[0]), Recorded(versions[0])] + Pairs(versions[1..])
  }

  ghost predicate Distinct(versions: seq<nat>) {
    forall i, j :: 0 <= i < j < |versions| ==> versions[i] != versions[j]
  }

  lemma {:induction false} PairsConcat(a: seq<nat>, b: seq<nat>)
    ensures Pairs(a + b) == Pairs(a) + Pairs(b)
    decreases |a|
  {
    if a == [] {
      assert a + b == b;
    } else {
      PairsConcat(a[1..], b);
      assert (a + b)[1..] == a[1..] + b && (a + b)[0] == a[0];
      Regroup([Applied(a[0]), Recorded(a[0])], Pairs(a[1..]), Pairs(b));
    }
  }

  /** Records of other versions do not matter. */
  lemma {:induction false} MissingFrame(versions: seq<nat>, a: seq<Entry>, b: seq<Entry>)
    requires forall v :: v in versions ==> (Recorded(v) in a <==> Recorded(v) in b)
    ensures Missing(versions, a) == Missing(versions, b)
  {
    if versions != [] { MissingFrame(versions[1..], a, b); }
  }

  /** What one migration adds, and the versions it takes off the missing ones. */
  function Added(version: nat, db: seq<Entry>): seq<Entry> {
    if Recorded(version) in db then [] else [Applied(version), Recorded(version)]
  }

  function Taken(version: nat, db: seq<Entry>): seq<nat> {
    if Recorded(version) in db then [] else [version]
  }

  lemma AddedIsPairs(version: nat, db: seq<Entry>)
    ensures Pairs(Taken(version, db)) == Added(version, db)
  {
    var none: seq<nat> := [];
    assert [version][1..] == none;
  }

  lemma OneWrite<W>(w: W)
    ensures KeptAll([Write(w)]) == ([w], false)
  {
    var none: seq<Stmt<W>> := [];
    assert [Write(w)][1..] == none && [w] + [] == [w];
  }

  lemma OneMigration(version: nat, db: seq<Entry>)
    ensures var s := Transaction(MigrationBody(version, db));
            && RunAll(Idle(db), Issue(s, false).0).db == db + Added(version, db)
            && forall k :: 0 <= k < |Issue(s, false).0| ==> RunAll(Idle(db), Issue(s, false).0[..k]).db == db
  {
    var body := MigrationBody(version, db);
    StatementIsKept(db, Transaction(body));
    forall k | 0 <= k < |Issue(Transaction(body), false).0|
      ensures RunAll(Idle(db), Issue(Transaction(body), false).0[..k]).db == db
    {
      CrashIsAtomic(db, body, k);
    }
    if Recorded(version) !in db {
      OneWrite(Recorded(version));
      assert body[1..] == [Write(Recorded(version))];
      assert KeptAll(body) == ([Applied(version)] + [Recorded(version)], false);
    } else {
      assert db + [] == db;
    }
  }

  /** One migration more leaves the rest missing as before. */
  lemma NextMissing(versions: seq<nat>, db: seq<Entry>)
    requires versions != [] && Distinct(versions)
    ensures Missing(versions[1..], db + Added(versions[0], db)) == Missing(versions[1..], db)
    ensures Missing(versions, db) == Taken(versions[0], db) + Missing(versions[1..], db)
  {
    var rest := versions[1..];
    var after := db + Added(versions[0], db);
    forall x | x in rest ensures Recorded(x) in after <==> Recorded(x) in db {
      var i :| 0 <= i < |rest| && rest[i] == x;
      assert versions[i + 1] == x;
    }
    MissingFrame(rest, after, db);
  }

  lemma Regroup<T>(a: seq<T>, b: seq<T>, c: seq<T>)
    ensures (a + b) + c == a + (b + c)
  {
  }

  lemma {:induction false} CompleteRun(versions: seq<nat>, db: seq<Entry>)
    requires Distinct(versions)
    ensures Migrated(versions, db) == db + Pairs(Missing(versions, db))
    decreases |versions|
  {
    hide Issue, RunAll, MigrationBody, Missing, Pairs, Added, Taken;
    if versions == [] {
      NothingMissing(db);
    } else {
      var v, rest := versions[0], versions[1..];
      OneMigration(v, db);
      NextMissing(versions, db);
      CompleteRun(rest, db + Added(v, db));
      AddedIsPairs(v, db);
      PairsConcat(Taken(v, db), Missing(rest, db));
      Regroup(db, Added(v, db), Pairs(Missing(rest, db)));
    }
  }

  lemma NothingMissing(db: seq<Entry>)
    ensures Missing([], db) == [] && db + Pairs([]) == db
  {
  }

  lemma NoneYet(db: seq<Entry>, missing: seq<nat>)
    ensures missing[..0] == [] && missing[0..] == missing && db + Pairs(missing[..0]) == db
  {
  }

  /** A run cut off anywhere has committed the first few missing migrations, whole. */
  lemma {:induction false} CutOffRun(versions: seq<nat>, db: seq<Entry>, k: nat) returns (n: nat)
    requires Distinct(versions)
    ensures n <= |Missing(versions, db)|
    ensures CutOff(versions, db, k) == db + Pairs(Missing(versions, db)[..n])
    decreases |versions|
  {
    hide Issue, RunAll, MigrationBody, Missing, Pairs, Added, Taken;
    NoneYet(db, Missing(versions, db));
    if versions == [] { return 0; }
    var v, rest := versions[0], versions[1..];
    var commands := Issue(Transaction(MigrationBody(v, db)), false).0;
    OneMigration(v, db);
    if k < |commands| { return 0; }
    NextMissing(versions, db);
    var m := CutOffRun(rest, db + Added(v, db), k - |commands|);
    var left := Missing(rest, db);
    n := |Taken(v, db)| + m;
    AddedIsPairs(v, db);
    PairsConcat(Taken(v, db), left[..m]);
    assert (Taken(v, db) + left)[..n] == Taken(v, db) + left[..m];
    Regroup(db, Added(v, db), Pairs(left[..m]));
  }

  /** What is still missing once the first few have been committed. */
  lemma {:induction false} StillMissing(versions: seq<nat>, db: seq<Entry>, n: nat)
    requires Distinct(versions) && n <= |Missing(versions, db)|
    ensures Missing(versions, db + Pairs(Missing(versions, db)[..n])) == Missing(versions, db)[n..]
    decreases |versions|
  {
    hide Missing, Pairs, Added;
    var missing := Missing(versions, db);
    NoneYet(db, missing);
    if versions == [] {
      NothingMissing(db);
    } else if n > 0 {
      var v, rest := versions[0], versions[1..];
      NextMissing(versions, db);
      var left := Missing(rest, db);
      var t := |Taken(v, db)|;
      var after := db + Added(v, db);
      StillMissing(rest, after, n - t);
      AddedIsPairs(v, db);
      PairsConcat(Taken(v, db), left[..n - t]);
      assert missing[..n] == Taken(v, db) + left[..n - t] && missing[n..] == left[n - t..];
      Regroup(db, Added(v, db), Pairs(left[..n - t]));
      FirstRecorded(versions, db, after + Pairs(left[..n - t]));
    }
  }

  lemma FirstRecorded(versions: seq<nat>, db: seq<Entry>, later: seq<Entry>)
    requires versions != [] && db + Added(versions[0], db) <= later
    ensures Missing(versions, later) == Missing(versions[1..], later)
  {
    var after := db + Added(versions[0], db);
    assert Recorded(versions[0]) in after;
    var i :| 0 <= i < |after| && after[i] == Recorded(versions[0]);
    assert later[i] == Recorded(versions[0]);
  }

  /** After any number of runs cut off by crashes and one complete run, every migration the
      database had no record of has been committed exactly once, in order, with its record, and
      nothing else has changed. */
  lemma {:induction false} MigrationsCommitOnce(versions: seq<nat>, db: seq<Entry>, cuts: seq<nat>)
    requires Distinct(versions)
    ensures Migrated(versions, CutOffRuns(versions, db, cuts)) == db + Pairs(Missing(versions, db))
    decreases |cuts|
  {
    hide CutOff, Migrated, Missing, Pairs;
    if cuts == [] {
      CompleteRun(versions, db);
    } else {
      var n := CutOffRun(versions, db, cuts[0]);
      var missing := Missing(versions, db);
      MigrationsCommitOnce(versions, CutOff(versions, db, cuts[0]), cuts[1..]);
      StillMissing(versions, db, n);
      PairsConcat(missing[..n], missing[n..]);
      assert missing[..n] + missing[n..] == missing;
      Regroup(db, Pairs(missing[..n]), Pairs(missing[n..]));
    }
  }

  /** SQLiteMigrationRunner.run: each missing migration in a transaction of its own. */
  method RunMigrations(connection: Connection<Entry>, versions: seq<nat>)
    requires connection.Value() == Idle(connection.db)
    modifies connection
    ensures connection.Value() == Idle(Migrated(versions, old(connection.db)))
  {
    hide Issue, MigrationBody;
    var i := 0;
    assert versions[0..] == versions;
    while i < |versions|
      invariant 0 <= i <= |versions|
      invariant connection.Value() == Idle(connection.db)
      invariant Migrated(versions[i..], connection.db) == Migrated(versions, old(connection.db))
    {
      assert versions[i..][1..] == versions[i + 1..];
      StatementIsKept(connection.db, Stmt.Transaction(MigrationBody(versions[i], connection.db)));
      var _ := connection.Transaction(MigrationBody(versions[i], connection.db));
      i := i + 1;
    }
    assert versions[i..] == [];
  }
}
