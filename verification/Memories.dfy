/** Memory selection (core/domain/memory.py): filter, sort by a key that ends with the memory
    id, drop duplicates, cut to the limit. */
module Memories {
  import opened Wrappers
  import opened Ordering

  datatype Memory = Memory(
    id: string,
    content: string,
    kind: string,
    scope: string,
    scopeId: Option<string>,
    owner: Option<string>,
    enabled: bool,
    tags: set<string>,
    expiresAt: Option<int>,
    priority: real,
    relevance: real,
    confidence: real,
    updatedAt: real,
    createdAt: real)

  datatype Selector = Selector(scope: string, scopeId: Option<string>)

  datatype SortBy = Default | Priority | Relevance | Confidence | UpdatedAt | CreatedAt | MemoryId | Score

  datatype Query = Query(
    scopes: seq<Selector>,
    scope: Option<string>,
    scopeId: Option<string>,
    kinds: set<string>,
    tags: set<string>,
    includeDisabled: bool,
    includeExpired: bool,
    minimumRelevance: Option<real>,
    minimumConfidence: Option<real>,
    text: Option<string>,
    sort: SortBy,
    deduplicate: bool,
    limit: Option<nat>)

  /** The time of the call, and the text functions: whether a text matches, the score, and the
      stripped and case-folded content. */
  datatype Setting = Setting(
    now: int,
    lexical: (Memory, string) -> bool,
    score: (Memory, Query) -> real,
    fold: string -> string)

  predicate HasScope(m: Memory, selector: Selector) {
    m.scope == selector.scope && m.scopeId == selector.scopeId
  }

  predicate MatchesScope(m: Memory, q: Query) {
    if q.scopes != [] then exists selector :: selector in q.scopes && HasScope(m, selector)
    else (q.scope.Some? ==> m.scope == q.scope.value) && (q.scopeId.Some? ==> m.scopeId == q.scopeId)
  }

  /** No reason to filter the memory out. */
  predicate Matches(m: Memory, q: Query, e: Setting) {
    && (q.includeDisabled || m.enabled)
    && MatchesScope(m, q)
    && (q.kinds != {} ==> m.kind in q.kinds)
    && q.tags <= m.tags
    && (q.includeExpired || m.expiresAt == None || m.expiresAt.value > e.now)
    && (q.minimumRelevance.Some? ==> m.relevance >= q.minimumRelevance.value)
    && (q.minimumConfidence.Some? ==> m.confidence >= q.minimumConfidence.value)
    && (q.text.Some? ==> e.lexical(m, q.text.value))
  }

  /** The index of the first selector the memory matches: how specific its scope is. */
  function ScopeRank(m: Memory, scopes: seq<Selector>): (rank: nat)
    ensures rank <= |scopes| && (rank < |scopes| ==> HasScope(m, scopes[rank]))
    ensures forall i :: 0 <= i < rank ==> !HasScope(m, scopes[i])
  {
    if scopes == [] || HasScope(m, scopes[0]) then 0 else 1 + ScopeRank(m, scopes[1..])
  }

  /** A sort key: scope rank, then numbers, then the memory id. */
  datatype Key = Key(rank: nat, values: seq<real>, id: string)

  function KeyOf(m: Memory, q: Query, e: Setting): Key {
    Key(ScopeRank(m, q.scopes),
        match q.sort
        case Default => [-m.priority, -m.relevance, -m.confidence]
        case Priority => [-m.priority, -m.relevance, -m.confidence]
        case Relevance => [-m.relevance, -m.priority, -m.confidence]
        case Confidence => [-m.confidence, -m.priority, -m.relevance]
        case UpdatedAt => [-m.updatedAt]
        case CreatedAt => [-m.createdAt]
        case MemoryId => []
        case Score => [-e.score(m, q)],
        m.id)
  }

  predicate ValuesLess(a: seq<real>, b: seq<real>) {
    b != [] && (a == [] || a[0] < b[0] || (a[0] == b[0] && ValuesLess(a[1..], b[1..])))
  }

  predicate KeyLess(a: Key, b: Key) {
    a.rank < b.rank
    || (a.rank == b.rank && (ValuesLess(a.values, b.values)
                             || (a.values == b.values && StringLess(a.id, b.id))))
  }

  lemma {:induction false} ValuesTotal(a: seq<real>, b: seq<real>)
    ensures a == b || ValuesLess(a, b) || ValuesLess(b, a)
    ensures !(ValuesLess(a, b) && ValuesLess(b, a)) && !ValuesLess(a, a)
    decreases |a|
  {
    if a != [] {
      ValuesTotal(a[1..], if b == [] then [] else b[1..]);
      assert a == [a[0]] + a[1..];
      if b != [] { assert b == [b[0]] + b[1..]; }
    }
  }

  lemma {:induction false} ValuesTransitive(a: seq<real>, b: seq<real>, c: seq<real>)
    requires ValuesLess(a, b) && ValuesLess(b, c)
    ensures ValuesLess(a, c)
    decreases |a|
  {
    if a != [] && a[0] == b[0] == c[0] { ValuesTransitive(a[1..], b[1..], c[1..]); }
  }

  lemma KeysAreOrdered(a: Key, b: Key)
    ensures a == b || KeyLess(a, b) || KeyLess(b, a)
    ensures !(KeyLess(a, b) && KeyLess(b, a)) && !KeyLess(a, a)
  {
    ValuesTotal(a.values, b.values);
    ValuesTotal(a.values, a.values);
    StringTotal(a.id, b.id);
    StringTotal(a.id, a.id);
  }

  lemma KeysTransitive(a: Key, b: Key, c: Key)
    requires KeyLess(a, b) && KeyLess(b, c)
    ensures KeyLess(a, c)
  {
    if a.rank == b.rank == c.rank {
      if ValuesLess(a.values, b.values) && ValuesLess(b.values, c.values) { ValuesTransitive(a.values, b.values, c.values); }
      ValuesTotal(a.values, a.values);
      if a.values == b.values == c.values { StringTransitive(a.id, b.id, c.id); }
    }
  }

  // ---------------------------------------------------------------- the reference

  function Filtered(memories: seq<Memory>, q: Query, e: Setting): seq<Memory> {
    if memories == [] then []
    else (if Matches(memories[0], q, e) then [memories[0]] else []) + Filtered(memories[1..], q, e)
  }

  /** A stable sort by key. */
  function Inserted(m: Memory, sorted: seq<Memory>, q: Query, e: Setting): seq<Memory> {
    if sorted == [] || !KeyLess(KeyOf(sorted[0], q, e), KeyOf(m, q, e)) then [m] + sorted
    else [sorted[0]] + Inserted(m, sorted[1..], q, e)
  }

  function Sorted(memories: seq<Memory>, q: Query, e: Setting): seq<Memory> {
    if memories == [] then [] else Inserted(memories[0], Sorted(memories[1..], q, e), q, e)
  }

  /** What makes two memories duplicates; with scope selectors the scope does not count. */
  datatype Duplicate = Duplicate(content: string, kind: string, scope: Option<Selector>, owner: Option<string>)

  function DuplicateKey(m: Memory, q: Query, e: Setting): Duplicate {
    Duplicate(e.fold(m.content), m.kind, if q.scopes != [] then None else Some(Selector(m.scope, m.scopeId)), m.owner)
  }

  function Deduplicated(memories: seq<Memory>, seen: set<Duplicate>, q: Query, e: Setting): seq<Memory>
    decreases |memories|
  {
    if memories == [] then []
    else
      var key := DuplicateKey(memories[0], q, e);
      if key in seen then Deduplicated(memories[1..], seen, q, e)
      else [memories[0]] + Deduplicated(memories[1..], seen + {key}, q, e)
  }

  /** The selection before the limit. */
  function Ranked(memories: seq<Memory>, q: Query, e: Setting): seq<Memory> {
    var sorted := Sorted(Filtered(memories, q, e), q, e);
    if q.deduplicate then Deduplicated(sorted, {}, q, e) else sorted
  }

  function Selected(memories: seq<Memory>, q: Query, e: Setting): seq<Memory> {
    var ranked := Ranked(memories, q, e);
    if q.limit.Some? && q.limit.value < |ranked| then ranked[..q.limit.value] else ranked
  }

  // --------------------------------------------------------------------- the loops

  method SortMemories(memories: seq<Memory>, q: Query, e: Setting) returns (sorted: seq<Memory>)
    ensures sorted == Sorted(memories, q, e)
  {
    sorted := [];
    var i := |memories|;
    while i > 0
      invariant 0 <= i <= |memories|
      invariant sorted == Sorted(memories[i..], q, e)
    {
      i := i - 1;
      assert memories[i..][1..] == memories[i + 1..];
      sorted := InsertMemory(memories[i], sorted, q, e);
    }
    assert memories[0..] == memories;
  }

  lemma Shift(a: seq<Memory>, i: nat, b: seq<Memory>)
    requires i < |a|
    ensures a[..i] + ([a[i]] + b) == a[..i + 1] + b
  {
  }

  method InsertMemory(m: Memory, sorted: seq<Memory>, q: Query, e: Setting) returns (out: seq<Memory>)
    ensures out == Inserted(m, sorted, q, e)
  {
    hide KeyLess, KeyOf;
    var i := 0;
    assert sorted[0..] == sorted;
    while i < |sorted| && KeyLess(KeyOf(sorted[i], q, e), KeyOf(m, q, e))
      invariant 0 <= i <= |sorted|
      invariant sorted[..i] + Inserted(m, sorted[i..], q, e) == Inserted(m, sorted, q, e)
    {
      assert sorted[i..][1..] == sorted[i + 1..];
      Shift(sorted, i, Inserted(m, sorted[i + 1..], q, e));
      i := i + 1;
    }
    out := sorted[..i] + [m] + sorted[i..];
    assert sorted[..i] + ([m] + sorted[i..]) == out;
  }

  /** The first loop of select: what no reason filters out. */
  method KeepMatching(memories: seq<Memory>, q: Query, e: Setting) returns (kept: seq<Memory>)
    ensures kept == Filtered(memories, q, e)
  {
    hide Matches;
    kept := [];
    var i := 0;
    assert memories[0..] == memories;
    while i < |memories|
      invariant 0 <= i <= |memories|
      invariant kept + Filtered(memories[i..], q, e) == Filtered(memories, q, e)
    {
      assert memories[i..][1..] == memories[i + 1..];
      if Matches(memories[i], q, e) { kept := kept + [memories[i]]; }
      i := i + 1;
    }
    assert memories[i..] == [];
  }

  /** BasicMemoryStrategy.select. */
  method Select(memories: seq<Memory>, q: Query, e: Setting) returns (selected: seq<Memory>)
    ensures selected == Selected(memories, q, e)
  {
    hide Sorted, Filtered, Deduplicated;
    var scored := KeepMatching(memories, q, e);
    scored := SortMemories(scored, q, e);
    if q.deduplicate { scored := DropDuplicates(scored, q, e); }
    if q.limit.Some? && q.limit.value < |scored| { scored := scored[..q.limit.value]; }
    return scored;
  }

  method DropDuplicates(scored: seq<Memory>, q: Query, e: Setting) returns (kept: seq<Memory>)
    ensures kept == Deduplicated(scored, {}, q, e)
  {
    hide DuplicateKey;
    var seen: set<Duplicate> := {};
    kept := [];
    var i := 0;
    assert scored[0..] == scored;
    while i < |scored|
      invariant 0 <= i <= |scored|
      invariant kept + Deduplicated(scored[i..], seen, q, e) == Deduplicated(scored, {}, q, e)
    {
      var key := DuplicateKey(scored[i], q, e);
      assert scored[i..][1..] == scored[i + 1..];
      if key !in seen {
        assert (kept + [scored[i]]) + Deduplicated(scored[i + 1..], seen + {key}, q, e)
               == kept + ([scored[i]] + Deduplicated(scored[i + 1..], seen + {key}, q, e));
        seen := seen + {key};
        kept := kept + [scored[i]];
      }
      i := i + 1;
    }
    assert scored[i..] == [];
  }

  // -------------------------------------------------------------------- properties

  ghost predicate DistinctIds(memories: seq<Memory>) {
    forall i, j :: 0 <= i < j < |memories| ==> memories[i].id != memories[j].id
  }

  /** Strictly increasing keys. */
  ghost predicate InOrder(memories: seq<Memory>, q: Query, e: Setting) {
    forall i, j :: 0 <= i < j < |memories| ==> KeyLess(KeyOf(memories[i], q, e), KeyOf(memories[j], q, e))
  }

  lemma {:induction false} InsertKeeps(m: Memory, sorted: seq<Memory>, q: Query, e: Setting)
    ensures multiset(Inserted(m, sorted, q, e)) == multiset(sorted) + multiset{m}
    decreases |sorted|
  {
    hide KeyLess, KeyOf;
    if sorted == [] || !KeyLess(KeyOf(sorted[0], q, e), KeyOf(m, q, e)) {
    } else {
      InsertKeeps(m, sorted[1..], q, e);
      assert sorted == [sorted[0]] + sorted[1..];
    }
  }

  lemma {:induction false} SortKeeps(memories: seq<Memory>, q: Query, e: Setting)
    ensures multiset(Sorted(memories, q, e)) == multiset(memories)
  {
    hide Inserted;
    if memories != [] {
      SortKeeps(memories[1..], q, e);
      InsertKeeps(memories[0], Sorted(memories[1..], q, e), q, e);
      assert memories == [memories[0]] + memories[1..];
    }
  }

  lemma {:induction false} InsertOrders(m: Memory, sorted: seq<Memory>, q: Query, e: Setting)
    requires InOrder(sorted, q, e) && forall x :: x in sorted ==> x.id != m.id
    ensures InOrder(Inserted(m, sorted, q, e), q, e)
    ensures forall x :: x in Inserted(m, sorted, q, e) ==> x == m || x in sorted
    decreases |sorted|
  {
    hide KeyLess, ScopeRank;
    if sorted == [] {
    } else {
      var first, rest := sorted[0], sorted[1..];
      KeysAreOrdered(KeyOf(first, q, e), KeyOf(m, q, e));
      assert first in sorted;
      if KeyLess(KeyOf(first, q, e), KeyOf(m, q, e)) {
        InsertOrders(m, rest, q, e);
        var out := Inserted(m, rest, q, e);
        forall x | x in out ensures KeyLess(KeyOf(first, q, e), KeyOf(x, q, e)) {
          if x in rest {
            var i :| 0 <= i < |rest| && rest[i] == x;
            assert sorted[i + 1] == x;
          }
        }
        PrependInOrder(first, out, q, e);
      } else {
        forall x | x in sorted ensures KeyLess(KeyOf(m, q, e), KeyOf(x, q, e)) {
          var i :| 0 <= i < |sorted| && sorted[i] == x;
          if i > 0 { KeysTransitive(KeyOf(m, q, e), KeyOf(first, q, e), KeyOf(x, q, e)); }
        }
        PrependInOrder(m, sorted, q, e);
      }
    }
  }

  lemma PrependInOrder(m: Memory, rest: seq<Memory>, q: Query, e: Setting)
    requires InOrder(rest, q, e) && forall x :: x in rest ==> KeyLess(KeyOf(m, q, e), KeyOf(x, q, e))
    ensures InOrder([m] + rest, q, e)
  {
    hide KeyLess, KeyOf;
  }

  lemma {:induction false} SortOrders(memories: seq<Memory>, q: Query, e: Setting)
    requires DistinctIds(memories)
    ensures InOrder(Sorted(memories, q, e), q, e)
  {
    hide Inserted, InOrder;
    if memories != [] {
      var rest := memories[1..];
      SortOrders(rest, q, e);
      SortKeeps(rest, q, e);
      var sorted := Sorted(rest, q, e);
      forall x | x in sorted ensures x.id != memories[0].id {
        assert x in multiset(sorted);
        var i :| 0 <= i < |rest| && rest[i] == x;
        assert memories[i + 1] == x;
      }
      InsertOrders(memories[0], sorted, q, e);
    } else {
      EmptyInOrder(q, e);
    }
  }

  lemma EmptyInOrder(q: Query, e: Setting)
    ensures InOrder([], q, e)
  {
  }

  /** There is one way to order a multiset by strictly increasing keys. */
  lemma {:induction false} OrderIsUnique(a: seq<Memory>, b: seq<Memory>, q: Query, e: Setting)
    requires InOrder(a, q, e) && InOrder(b, q, e) && multiset(a) == multiset(b)
    ensures a == b
    decreases |a|
  {
    hide KeyLess, KeyOf, InOrder;
    assert |multiset(a)| == |a| && |multiset(b)| == |b|;
    if a != [] {
      FirstIsLeast(a, b, q, e);
      RestInOrder(a, q, e);
      RestInOrder(b, q, e);
      assert a == [a[0]] + a[1..] && b == [b[0]] + b[1..];
      assert multiset(a[1..]) == multiset(a) - multiset{a[0]} && multiset(b[1..]) == multiset(b) - multiset{b[0]};
      OrderIsUnique(a[1..], b[1..], q, e);
    }
  }

  lemma RestInOrder(a: seq<Memory>, q: Query, e: Setting)
    requires a != [] && InOrder(a, q, e)
    ensures InOrder(a[1..], q, e)
  {
    hide KeyLess, KeyOf;
  }

  lemma FirstIsLeast(a: seq<Memory>, b: seq<Memory>, q: Query, e: Setting)
    requires InOrder(a, q, e) && InOrder(b, q, e) && multiset(a) == multiset(b) && a != [] && b != []
    ensures a[0] == b[0]
  {
    hide KeyLess, KeyOf;
    assert a[0] in multiset(b) && b[0] in multiset(a);
    var i :| 0 <= i < |b| && b[i] == a[0];
    var j :| 0 <= j < |a| && a[j] == b[0];
    if i > 0 && j > 0 {
      KeysAreOrdered(KeyOf(a[0], q, e), KeyOf(b[0], q, e));
      assert false;
    }
  }

  lemma {:induction false} FilterCounts(memories: seq<Memory>, q: Query, e: Setting, m: Memory)
    ensures multiset(Filtered(memories, q, e))[m] == if Matches(m, q, e) then multiset(memories)[m] else 0
  {
    hide Matches;
    if memories != [] {
      FilterCounts(memories[1..], q, e, m);
      assert memories == [memories[0]] + memories[1..];
    }
  }

  lemma {:induction false} FilterDistinct(memories: seq<Memory>, q: Query, e: Setting)
    requires DistinctIds(memories)
    ensures DistinctIds(Filtered(memories, q, e))
    ensures forall m :: m in Filtered(memories, q, e) <==> m in memories && Matches(m, q, e)
  {
    hide Matches;
    if memories != [] {
      var rest := memories[1..];
      FilterDistinct(rest, q, e);
      assert memories == [memories[0]] + rest;
      var kept := Filtered(rest, q, e);
      forall i | 0 <= i < |kept| ensures kept[i].id != memories[0].id {
        assert kept[i] in rest;
        var j :| 0 <= j < |rest| && rest[j] == kept[i];
        assert memories[j + 1] == kept[i];
      }
    }
  }

  /** Selection is canonical: for memories with distinct ids it is the same for every order of
      the input. */
  lemma SelectionIsCanonical(a: seq<Memory>, b: seq<Memory>, q: Query, e: Setting)
    requires DistinctIds(a) && DistinctIds(b) && multiset(a) == multiset(b)
    ensures Selected(a, q, e) == Selected(b, q, e)
  {
    hide Filtered, Sorted, Matches, InOrder, DistinctIds;
    var x, y := Filtered(a, q, e), Filtered(b, q, e);
    forall m ensures multiset(x)[m] == multiset(y)[m] {
      FilterCounts(a, q, e, m);
      FilterCounts(b, q, e, m);
    }
    FilterDistinct(a, q, e);
    FilterDistinct(b, q, e);
    SortKeeps(x, q, e);
    SortKeeps(y, q, e);
    SortOrders(x, q, e);
    SortOrders(y, q, e);
    OrderIsUnique(Sorted(x, q, e), Sorted(y, q, e), q, e);
  }

  /** The kept memories have distinct duplicate keys, none of them seen before. */
  lemma {:induction false} KeptAreDistinct(memories: seq<Memory>, seen: set<Duplicate>, q: Query, e: Setting)
    ensures var kept := Deduplicated(memories, seen, q, e);
            && (forall m :: m in kept ==> m in memories && DuplicateKey(m, q, e) !in seen)
            && forall i, j :: 0 <= i < j < |kept| ==> DuplicateKey(kept[i], q, e) != DuplicateKey(kept[j], q, e)
    decreases |memories|
  {
    hide DuplicateKey;
    if memories != [] {
      var key := DuplicateKey(memories[0], q, e);
      assert memories == [memories[0]] + memories[1..];
      KeptAreDistinct(memories[1..], if key in seen then seen else seen + {key}, q, e);
    }
  }

  /** A dropped memory has a kept one before it with the same duplicate key. */
  lemma {:induction false} DroppedIsRepresented(memories: seq<Memory>, seen: set<Duplicate>, i: nat, q: Query, e: Setting)
    requires i < |memories| && DuplicateKey(memories[i], q, e) !in seen
    ensures exists j :: 0 <= j <= i && memories[j] in Deduplicated(memories, seen, q, e)
                        && DuplicateKey(memories[j], q, e) == DuplicateKey(memories[i], q, e)
    decreases |memories|
  {
    hide DuplicateKey;
    var key, rest := DuplicateKey(memories[0], q, e), memories[1..];
    if key == DuplicateKey(memories[i], q, e) {
      assert memories[0] in Deduplicated(memories, seen, q, e);
    } else {
      var seen' := if key in seen then seen else seen + {key};
      DroppedIsRepresented(rest, seen', i - 1, q, e);
      var j :| 0 <= j <= i - 1 && rest[j] in Deduplicated(rest, seen', q, e)
               && DuplicateKey(rest[j], q, e) == DuplicateKey(memories[i], q, e);
      assert memories[j + 1] == rest[j];
    }
  }

  /** Before the limit, a deduplicated selection holds no two equal duplicate keys, and every
      matching memory is represented by a kept one of the same key whose scope is at least as
      specific. */
  lemma DuplicatesAreRepresented(memories: seq<Memory>, q: Query, e: Setting, m: Memory)
    requires DistinctIds(memories) && q.deduplicate && m in memories && Matches(m, q, e)
    ensures var kept := Ranked(memories, q, e);
            && (forall i, j :: 0 <= i < j < |kept| ==> DuplicateKey(kept[i], q, e) != DuplicateKey(kept[j], q, e))
            && exists k :: k in kept && DuplicateKey(k, q, e) == DuplicateKey(m, q, e)
                           && ScopeRank(k, q.scopes) <= ScopeRank(m, q.scopes)
  {
    hide Filtered, Sorted, Matches, DistinctIds, DuplicateKey, Deduplicated, ScopeRank, InOrder;
    var sorted := Sorted(Filtered(memories, q, e), q, e);
    FilterDistinct(memories, q, e);
    SortKeeps(Filtered(memories, q, e), q, e);
    SortOrders(Filtered(memories, q, e), q, e);
    KeptAreDistinct(sorted, {}, q, e);
    assert m in multiset(sorted);
    var i :| 0 <= i < |sorted| && sorted[i] == m;
    SortedRepresents(sorted, i, q, e);
  }

  lemma SortedRepresents(sorted: seq<Memory>, i: nat, q: Query, e: Setting)
    requires InOrder(sorted, q, e) && i < |sorted|
    ensures exists k :: k in Deduplicated(sorted, {}, q, e) && DuplicateKey(k, q, e) == DuplicateKey(sorted[i], q, e)
                        && ScopeRank(k, q.scopes) <= ScopeRank(sorted[i], q.scopes)
  {
    hide DuplicateKey, Deduplicated, ScopeRank;
    DroppedIsRepresented(sorted, {}, i, q, e);
    var j :| 0 <= j <= i && sorted[j] in Deduplicated(sorted, {}, q, e)
             && DuplicateKey(sorted[j], q, e) == DuplicateKey(sorted[i], q, e);
    assert j < i ==> KeyLess(KeyOf(sorted[j], q, e), KeyOf(sorted[i], q, e));
  }

  // ------------------------------------------------------------ what is selected

  /** Why a memory is not considered. */
  predicate IsRuledOut(m: Memory, q: Query, e: Setting) {
    || (!m.enabled && !q.includeDisabled)
    || (m.expiresAt.Some? && m.expiresAt.value <= e.now && !q.includeExpired)
    || (q.scopes != [] && forall selector :: selector in q.scopes ==> m.scope != selector.scope || m.scopeId != selector.scopeId)
    || (q.scopes == [] && q.scope.Some? && m.scope != q.scope.value)
    || (q.scopes == [] && q.scopeId.Some? && m.scopeId != q.scopeId)
    || (q.kinds != {} && m.kind !in q.kinds)
    || (exists tag :: tag in q.tags && tag !in m.tags)
    || (q.minimumRelevance.Some? && m.relevance < q.minimumRelevance.value)
    || (q.minimumConfidence.Some? && m.confidence < q.minimumConfidence.value)
    || (q.text.Some? && !e.lexical(m, q.text.value))
  }

  /** The order of two memories of the same scope rank: the measure sorted by, then the others, the
      higher the earlier, and in the end the id. */
  predicate GoesFirst(a: Memory, b: Memory, q: Query, e: Setting) {
    match q.sort
    case Default => ByThree(a.priority, b.priority, a.relevance, b.relevance, a.confidence, b.confidence, a.id, b.id)
    case Priority => ByThree(a.priority, b.priority, a.relevance, b.relevance, a.confidence, b.confidence, a.id, b.id)
    case Relevance => ByThree(a.relevance, b.relevance, a.priority, b.priority, a.confidence, b.confidence, a.id, b.id)
    case Confidence => ByThree(a.confidence, b.confidence, a.priority, b.priority, a.relevance, b.relevance, a.id, b.id)
    case UpdatedAt => a.updatedAt > b.updatedAt || (a.updatedAt == b.updatedAt && StringLess(a.id, b.id))
    case CreatedAt => a.createdAt > b.createdAt || (a.createdAt == b.createdAt && StringLess(a.id, b.id))
    case MemoryId => StringLess(a.id, b.id)
    case Score => e.score(a, q) > e.score(b, q) || (e.score(a, q) == e.score(b, q) && StringLess(a.id, b.id))
  }

  predicate ByThree(a1: real, b1: real, a2: real, b2: real, a3: real, b3: real, a: string, b: string) {
    a1 > b1 || (a1 == b1 && (a2 > b2 || (a2 == b2 && (a3 > b3 || (a3 == b3 && StringLess(a, b))))))
  }

  /** Keys order memories by how specific their scope is, and within a rank by the measures. */
  lemma KeysMean(a: Memory, b: Memory, q: Query, e: Setting)
    ensures KeyLess(KeyOf(a, q, e), KeyOf(b, q, e))
            <==> ScopeRank(a, q.scopes) < ScopeRank(b, q.scopes)
                 || (ScopeRank(a, q.scopes) == ScopeRank(b, q.scopes) && GoesFirst(a, b, q, e))
  {
    hide ScopeRank, StringLess, ValuesLess;
    match q.sort
    case Default => ThreeValues(-a.priority, -a.relevance, -a.confidence, -b.priority, -b.relevance, -b.confidence);
    case Priority => ThreeValues(-a.priority, -a.relevance, -a.confidence, -b.priority, -b.relevance, -b.confidence);
    case Relevance => ThreeValues(-a.relevance, -a.priority, -a.confidence, -b.relevance, -b.priority, -b.confidence);
    case Confidence => ThreeValues(-a.confidence, -a.priority, -a.relevance, -b.confidence, -b.priority, -b.relevance);
    case UpdatedAt => OneValue(-a.updatedAt, -b.updatedAt);
    case CreatedAt => OneValue(-a.createdAt, -b.createdAt);
    case MemoryId => OneValue(0.0, 0.0);
    case Score => OneValue(-e.score(a, q), -e.score(b, q));
  }

  lemma OneValue(a: real, b: real)
    ensures ValuesLess([a], [b]) <==> a < b
    ensures ([a] == [b]) <==> a == b
    ensures !ValuesLess([], [])
  {
    assert [a][0] == a && [b][0] == b;
  }

  lemma ThreeValues(a1: real, a2: real, a3: real, b1: real, b2: real, b3: real)
    ensures ValuesLess([a1, a2, a3], [b1, b2, b3]) <==> a1 < b1 || (a1 == b1 && (a2 < b2 || (a2 == b2 && a3 < b3)))
    ensures ([a1, a2, a3] == [b1, b2, b3]) <==> a1 == b1 && a2 == b2 && a3 == b3
  {
    var a, b := [a1, a2, a3], [b1, b2, b3];
    assert a[1..] == [a2, a3] && b[1..] == [b2, b3] && [a2, a3][1..] == [a3] && [b2, b3][1..] == [b3];
    OneValue(a3, b3);
    assert a[0] == a1 && a[1] == a2 && a[2] == a3 && b[0] == b1 && b[1] == b2 && b[2] == b3;
  }

  /** Two memories count as the same exactly when they say the same of one kind and owner, and,
      unless scopes are asked for, in one scope. */
  lemma DuplicatesMean(a: Memory, b: Memory, q: Query, e: Setting)
    ensures DuplicateKey(a, q, e) == DuplicateKey(b, q, e)
            <==> e.fold(a.content) == e.fold(b.content) && a.kind == b.kind && a.owner == b.owner
                 && (q.scopes == [] ==> a.scope == b.scope && a.scopeId == b.scopeId)
  {
  }

  lemma MatchMeans(m: Memory, q: Query, e: Setting)
    ensures Matches(m, q, e) <==> !IsRuledOut(m, q, e)
  {
  }

  lemma {:induction false} DeduplicatedInOrder(memories: seq<Memory>, seen: set<Duplicate>, q: Query, e: Setting)
    requires InOrder(memories, q, e)
    ensures var kept := Deduplicated(memories, seen, q, e);
            InOrder(kept, q, e) && forall m :: m in kept ==> m in memories
    decreases |memories|
  {
    hide KeyLess, KeyOf, DuplicateKey;
    if memories != [] {
      var m, key := memories[0], DuplicateKey(memories[0], q, e);
      RestInOrder(memories, q, e);
      DeduplicatedInOrder(memories[1..], seen, q, e);
      DeduplicatedInOrder(memories[1..], seen + {key}, q, e);
      var kept := Deduplicated(memories[1..], seen + {key}, q, e);
      forall x | x in kept ensures KeyLess(KeyOf(m, q, e), KeyOf(x, q, e)) {
        var i :| 0 <= i < |memories| - 1 && memories[1..][i] == x;
        assert memories[i + 1] == x;
      }
      PrependInOrder(m, kept, q, e);
    }
  }

  lemma RankedIs(memories: seq<Memory>, q: Query, e: Setting)
    requires DistinctIds(memories)
    ensures InOrder(Ranked(memories, q, e), q, e)
    ensures forall m :: m in Ranked(memories, q, e) ==> m in memories && Matches(m, q, e)
    ensures !q.deduplicate ==> forall m :: m in memories && Matches(m, q, e) ==> m in Ranked(memories, q, e)
  {
    hide Filtered, Sorted, Matches, InOrder, DistinctIds, Deduplicated;
    var x := Filtered(memories, q, e);
    FilterDistinct(memories, q, e);
    SortOrders(x, q, e);
    SortKeeps(x, q, e);
    forall m ensures m in Sorted(x, q, e) <==> m in x {
      assert m in multiset(Sorted(x, q, e)) <==> m in multiset(x);
    }
    DeduplicatedInOrder(Sorted(x, q, e), {}, q, e);
  }

  /** The selected memories are none of those ruled out, they stand in the promised order, there are
      no more than the limit allows, and whatever the limit cut off comes after all of them. */
  lemma SelectionIsRanked(memories: seq<Memory>, q: Query, e: Setting)
    requires DistinctIds(memories)
    ensures var out := Selected(memories, q, e);
            && (forall m :: m in out ==> m in memories && !IsRuledOut(m, q, e))
            && (forall i, j :: 0 <= i < j < |out| ==>
                  || ScopeRank(out[i], q.scopes) < ScopeRank(out[j], q.scopes)
                  || (ScopeRank(out[i], q.scopes) == ScopeRank(out[j], q.scopes) && GoesFirst(out[i], out[j], q, e)))
            && (q.limit.Some? ==> |out| <= q.limit.value)
            && ((q.limit.Some? ==> |out| < q.limit.value) ==> out == Ranked(memories, q, e))
            && (forall m :: m in Ranked(memories, q, e) && m !in out ==>
                  forall i :: 0 <= i < |out| ==> KeyLess(KeyOf(out[i], q, e), KeyOf(m, q, e)))
            && (q.limit == None && !q.deduplicate ==> forall m :: m in memories && !IsRuledOut(m, q, e) ==> m in out)
  {
    hide Ranked, Matches, IsRuledOut, KeyLess, KeyOf, GoesFirst, ScopeRank, DistinctIds;
    var ranked, out := Ranked(memories, q, e), Selected(memories, q, e);
    RankedIs(memories, q, e);
    forall m ensures Matches(m, q, e) <==> !IsRuledOut(m, q, e) { MatchMeans(m, q, e); }
    assert forall i :: 0 <= i < |out| ==> out[i] == ranked[i];
    forall i, j | 0 <= i < j < |out|
      ensures || ScopeRank(out[i], q.scopes) < ScopeRank(out[j], q.scopes)
              || (ScopeRank(out[i], q.scopes) == ScopeRank(out[j], q.scopes) && GoesFirst(out[i], out[j], q, e))
    {
      KeysMean(out[i], out[j], q, e);
    }
    forall m | m in ranked && m !in out
      ensures forall i :: 0 <= i < |out| ==> KeyLess(KeyOf(out[i], q, e), KeyOf(m, q, e))
    {
      var k :| 0 <= k < |ranked| && ranked[k] == m;
      forall n | 0 <= n < |out| ensures ranked[n] != m { assert out[n] in out; }
      assert k >= |out|;
    }
  }
}
