/** `rollback_plan` of core/ingest_state.py: the deletes that undo a run, children before parents. */
module RollbackPlan {
  import opened Basics
  import opened IngestSchema
  import opened RollbackRun

  // ---------------------------------------------------------------- lists of tables

  method ChildrenOf(tables: seq<Table>, parent: string) returns (out: seq<(Table, string)>)
    ensures forall c, col :: (c, col) in out <==> c in tables && References(c, col, parent)
  {
    out := [];
    for i := 0 to |tables|
      invariant forall c, col :: (c, col) in out <==> c in tables[..i] && References(c, col, parent)
    {
      var t := tables[i];
      ghost var before := out;
      for j := 0 to |t.foreign|
        invariant forall x :: x in out <==> x in before || exists k :: 0 <= k < j && t.foreign[k].parent == parent && x == (t, t.foreign[k].col)
      {
        if t.foreign[j].parent == parent {
          out := out + [(t, t.foreign[j].col)];
        }
      }
      assert tables[..i + 1] == tables[..i] + [t];
    }
    assert tables[..|tables|] == tables;
  }

  method BlobDerivedTables(tables: seq<Table>) returns (out: seq<(Table, string)>)
    ensures forall t, col :: (t, col) in out <==> t in tables && BlobDerived(t, col)
  {
    var children := ChildrenOf(tables, FILE_BLOB);
    out := [];
    for i := 0 to |children|
      invariant forall x :: x in out <==> x in children[..i] && x.0.name !in COMMIT_SCOPED
    {
      assert children[..i + 1] == children[..i] + [children[i]];
      if children[i].0.name !in COMMIT_SCOPED {
        out := out + [children[i]];
      }
    }
    assert children[..|children|] == children;
  }

  method MarkedTables(tables: seq<Table>, marks: map<string, int>) returns (out: seq<Table>)
    requires DistinctNames(tables)
    ensures forall t :: t in out <==> t in tables && Marked(t) && t.name in marks
    ensures DistinctNames(out)
  {
    out := [];
    for i := 0 to |tables|
      invariant forall t :: t in out <==> t in tables[..i] && Marked(t) && t.name in marks
      invariant DistinctNames(out)
    {
      assert tables[..i + 1] == tables[..i] + [tables[i]];
      assert forall k :: 0 <= k < |out| ==> out[k] in tables[..i];
      if Marked(tables[i]) && tables[i].name in marks {
        out := out + [tables[i]];
      }
    }
    assert tables[..|tables|] == tables;
  }

  // ---------------------------------------------------------------- children first

  predicate RefersTo(o: Table, t: Table) {
    o.name != t.name && exists i :: 0 <= i < |o.foreign| && o.foreign[i].parent == t.name
  }

  predicate Ready(pending: seq<Table>, t: Table) {
    forall i :: 0 <= i < |pending| ==> !RefersTo(pending[i], t)
  }

  ghost predicate RankedList(marked: seq<Table>, rank: map<string, nat>) {
    forall o, t :: o in marked && t in marked && RefersTo(o, t) ==> o.name in rank && t.name in rank && rank[o.name] > rank[t.name]
  }

  ghost function RankOf(rank: map<string, nat>, t: Table): nat {
    if t.name in rank then rank[t.name] else 0
  }

  /** Without a cycle, some pending table is referenced by no other pending one: the one of highest rank. */
  lemma {:induction false} SomeReady(pending: seq<Table>, rank: map<string, nat>)
    requires pending != [] && RankedList(pending, rank)
    ensures exists i :: 0 <= i < |pending| && Ready(pending, pending[i])
  {
    var top := Highest(pending, rank);
    forall i | 0 <= i < |pending| ensures !RefersTo(pending[i], pending[top]) {
      assert RankOf(rank, pending[i]) <= RankOf(rank, pending[top]);
    }
  }

  lemma {:induction false} Highest(pending: seq<Table>, rank: map<string, nat>) returns (top: nat)
    requires pending != []
    ensures top < |pending| && forall i :: 0 <= i < |pending| ==> RankOf(rank, pending[i]) <= RankOf(rank, pending[top])
  {
    top := 0;
    for k := 0 to |pending|
      invariant top < |pending| && forall i :: 0 <= i < k ==> RankOf(rank, pending[i]) <= RankOf(rank, pending[top])
    {
      if RankOf(rank, pending[k]) > RankOf(rank, pending[top]) {
        top := k;
      }
    }
  }

  ghost predicate ChildFirst(order: seq<Table>) {
    forall i, j :: 0 <= i < j < |order| ==> !RefersTo(order[j], order[i])
  }

  /** Marked tables ordered so that a table comes before every marked table it references; in a cycle, declaration
      order. No table is lost or added. */
  method ChildFirstOrder(marked: seq<Table>, ghost rank: map<string, nat>) returns (order: seq<Table>)
    requires forall i, j :: 0 <= i < j < |marked| ==> marked[i].name != marked[j].name
    ensures forall t :: t in order <==> t in marked
    ensures RankedList(marked, rank) ==> ChildFirst(order)
  {
    order := [];
    var pending := marked;
    while pending != []
      invariant forall t :: t in marked <==> t in order || t in pending
      invariant forall i, j :: 0 <= i < j < |pending| ==> pending[i].name != pending[j].name
      invariant RankedList(marked, rank) ==> ChildFirst(order) && forall i, o :: 0 <= i < |order| && o in pending ==> !RefersTo(o, order[i])
      decreases |pending|
    {
      var ready := ReadyTables(pending);
      if ready == [] {
        ready := pending[..1];
        if RankedList(marked, rank) {
          assert RankedList(pending, rank);
          SomeReady(pending, rank);
          assert false;
        }
      }
      ghost var before := pending;
      var rest := Without(pending, ready);
      if RankedList(marked, rank) {
        BatchChildFirst(order, ready, pending);
      }
      order := order + ready;
      pending := rest;
      assert ready[0] in before && ready[0] !in pending;
      Shrinks(before, pending, ready[0]);
    }
  }

  lemma {:induction false} BatchChildFirst(order: seq<Table>, ready: seq<Table>, pending: seq<Table>)
    requires ChildFirst(order) && forall i, o :: 0 <= i < |order| && o in pending ==> !RefersTo(o, order[i])
    requires forall i :: 0 <= i < |ready| ==> ready[i] in pending && Ready(pending, ready[i])
    ensures ChildFirst(order + ready)
    ensures forall i, o :: 0 <= i < |order + ready| && o in pending ==> !RefersTo(o, (order + ready)[i])
  {
    forall i, o | 0 <= i < |order + ready| && o in pending ensures !RefersTo(o, (order + ready)[i]) {
      if i >= |order| {
        var k :| 0 <= k < |pending| && pending[k] == o;
        assert Ready(pending, ready[i - |order|]);
      }
    }
    forall i, j | 0 <= i < j < |order + ready| ensures !RefersTo((order + ready)[j], (order + ready)[i]) {
      if j >= |order| {
        assert ready[j - |order|] in pending;
      }
    }
  }

  lemma {:induction false} Shrinks(before: seq<Table>, after: seq<Table>, gone: Table)
    requires forall i, j :: 0 <= i < j < |after| ==> after[i].name != after[j].name
    requires forall t :: t in after ==> t in before
    requires gone in before && gone !in after
    ensures |after| < |before|
  {
    var inAfter, inBefore := set t | t in after, set t | t in before;
    DistinctSize(after);
    SetSize(before);
    assert inAfter < inBefore by {
      assert gone in inBefore && gone !in inAfter;
    }
    ProperSubsetSize(inAfter, inBefore);
  }

  lemma {:induction false} ProperSubsetSize<T>(a: set<T>, b: set<T>)
    requires a < b
    ensures |a| < |b|
  {
    assert b == a + (b - a);
    assert b - a != {};
  }

  lemma {:induction false} DistinctSize(s: seq<Table>)
    requires forall i, j :: 0 <= i < j < |s| ==> s[i].name != s[j].name
    ensures |set t | t in s| == |s|
  {
    if s != [] {
      var front, last := s[..|s|-1], s[|s|-1];
      DistinctSize(front);
      assert (set t | t in s) == (set t | t in front) + {last} by {
        assert s == front + [last];
      }
      assert last !in front;
    }
  }

  lemma {:induction false} SetSize(s: seq<Table>)
    ensures |set t | t in s| <= |s|
  {
    if s != [] {
      var front, last := s[..|s|-1], s[|s|-1];
      SetSize(front);
      assert (set t | t in s) == (set t | t in front) + {last} by {
        assert s == front + [last];
      }
    }
  }

  method ReadyTables(pending: seq<Table>) returns (ready: seq<Table>)
    ensures forall i :: 0 <= i < |ready| ==> ready[i] in pending && Ready(pending, ready[i])
    ensures ready == [] ==> forall i :: 0 <= i < |pending| ==> !Ready(pending, pending[i])
  {
    ready := [];
    for i := 0 to |pending|
      invariant forall k :: 0 <= k < |ready| ==> ready[k] in pending && Ready(pending, ready[k])
      invariant ready == [] ==> forall k :: 0 <= k < i ==> !Ready(pending, pending[k])
    {
      if Ready(pending, pending[i]) {
        ready := ready + [pending[i]];
      }
    }
  }

  /** The pending tables that were not placed. */
  method Without(pending: seq<Table>, placed: seq<Table>) returns (rest: seq<Table>)
    requires forall i, j :: 0 <= i < j < |pending| ==> pending[i].name != pending[j].name
    requires forall i :: 0 <= i < |placed| ==> placed[i] in pending
    ensures forall t :: t in rest <==> t in pending && t !in placed
    ensures forall i, j :: 0 <= i < j < |rest| ==> rest[i].name != rest[j].name
  {
    rest := [];
    for i := 0 to |pending|
      invariant forall t :: t in rest <==> t in pending[..i] && t !in placed
      invariant forall k, j :: 0 <= k < j < |rest| ==> rest[k].name != rest[j].name
    {
      assert pending[..i + 1] == pending[..i] + [pending[i]];
      if !exists k :: 0 <= k < |placed| && placed[k].name == pending[i].name {
        assert forall k :: 0 <= k < |rest| ==> rest[k] in pending[..i];
        rest := rest + [pending[i]];
      } else {
        var k :| 0 <= k < |placed| && placed[k].name == pending[i].name;
        assert placed[k] == pending[i];
      }
    }
    assert pending[..|pending|] == pending;
  }

  // ---------------------------------------------------------------- the plan

  /** What every prefix of the plan satisfies. */
  ghost predicate Partial(tables: seq<Table>, run: Run, plan: seq<Delete>) {
    && (forall i :: 0 <= i < |plan| ==> Planned(tables, run, plan[i]))
    && Ordered(tables, run.marks, plan)
  }

  lemma {:induction false} AppendPartial(tables: seq<Table>, run: Run, plan: seq<Delete>, d: Delete)
    requires Partial(tables, run, plan) && Planned(tables, run, d)
    requires forall e :: Needs(tables, run.marks, d, e) ==> e in plan
    ensures Partial(tables, run, plan + [d])
  {
    var more := plan + [d];
    forall i, e | 0 <= i < |more| && Needs(tables, run.marks, more[i], e) ensures e in more[..i] {
      if i < |plan| {
        assert more[..i] == plan[..i];
      } else {
        assert more[..i] == plan;
      }
    }
  }

  /** A delete on a table without an allocated id has nothing to wait for. */
  lemma {:induction false} UnmarkedNeedsNothing(tables: seq<Table>, marks: map<string, int>, t: Table, d: Delete, e: Delete)
    requires Sound(tables) && t in tables && t.name == d.table && !Marked(t)
    ensures !Needs(tables, marks, d, e)
  {
  }

  /** The derived rows of a chunk, and before them the rows hanging off them. */
  method AddDerived(tables: seq<Table>, ghost run: Run, plan: seq<Delete>, t: Table, col: string, chunk: seq<int>) returns (plan': seq<Delete>)
    requires Sound(tables) && Partial(tables, run, plan) && t in tables && BlobDerived(t, col)
    requires forall v :: v in chunk ==> v in run.blobs
    ensures Partial(tables, run, plan') && plan <= plan'
    ensures Delete(t.name, In(col, chunk)) in plan'
    ensures Marked(t) ==> forall c, ccol :: c in tables && References(c, ccol, t.name) ==>
              Delete(c.name, InSub(ccol, t.name, IdColumn(t).value, col, chunk)) in plan'
  {
    plan' := plan;
    var own := Delete(t.name, In(col, chunk));
    if Marked(t) {
      var children := ChildrenOf(tables, t.name);
      for i := 0 to |children|
        invariant Partial(tables, run, plan') && plan <= plan'
        invariant forall k :: 0 <= k < i ==> Delete(children[k].0.name, InSub(children[k].1, t.name, IdColumn(t).value, col, chunk)) in plan'
      {
        hide Ordered, Needs, Planned;
        var c, ccol := children[i].0, children[i].1;
        assert (c, ccol) in children;
        var d := Delete(c.name, InSub(ccol, t.name, IdColumn(t).value, col, chunk));
        HangingPlanned(tables, run, plan', t, col, c, ccol, chunk);
        AppendPartial(tables, run, plan', d);
        plan' := plan' + [d];
      }
      forall c, ccol | c in tables && References(c, ccol, t.name)
        ensures Delete(c.name, InSub(ccol, t.name, IdColumn(t).value, col, chunk)) in plan'
      {
        assert (c, ccol) in children;
      }
    }
    OwnPlanned(tables, run, plan', t, col, chunk);
    AppendPartial(tables, run, plan', own);
    plan' := plan' + [own];
  }

  lemma {:induction false} KnownTable(tables: seq<Table>, t: Table)
    requires t in tables
    ensures Known(tables, t.name)
  {
  }

  lemma {:induction false} HangingPlanned(tables: seq<Table>, run: Run, plan: seq<Delete>, t: Table, col: string, c: Table, ccol: string, chunk: seq<int>)
    requires Sound(tables) && t in tables && BlobDerived(t, col) && Marked(t) && c in tables && References(c, ccol, t.name)
    requires forall v :: v in chunk ==> v in run.blobs
    ensures Planned(tables, run, Delete(c.name, InSub(ccol, t.name, IdColumn(t).value, col, chunk)))
    ensures forall e :: Needs(tables, run.marks, Delete(c.name, InSub(ccol, t.name, IdColumn(t).value, col, chunk)), e) ==> e in plan
  {
    var d := Delete(c.name, InSub(ccol, t.name, IdColumn(t).value, col, chunk));
    KnownTable(tables, c);
    assert PlannedInSub(tables, run, d);
    forall e ensures !Needs(tables, run.marks, d, e) {
      UnmarkedNeedsNothing(tables, run.marks, c, d, e);
    }
  }

  lemma {:induction false} OwnPlanned(tables: seq<Table>, run: Run, plan: seq<Delete>, t: Table, col: string, chunk: seq<int>)
    requires Sound(tables) && t in tables && BlobDerived(t, col)
    requires forall v :: v in chunk ==> v in run.blobs
    requires Marked(t) ==> forall c, ccol :: c in tables && References(c, ccol, t.name) ==>
               Delete(c.name, InSub(ccol, t.name, IdColumn(t).value, col, chunk)) in plan
    ensures Planned(tables, run, Delete(t.name, In(col, chunk)))
    ensures forall e :: Needs(tables, run.marks, Delete(t.name, In(col, chunk)), e) ==> e in plan
  {
    var d := Delete(t.name, In(col, chunk));
    KnownTable(tables, t);
    assert PlannedIn(tables, run, d);
    forall e | Needs(tables, run.marks, d, e) ensures e in plan {
      if !Marked(t) {
        UnmarkedNeedsNothing(tables, run.marks, t, d, e);
      } else {
        var u, c, ccol :| u in tables && u.name == d.table && Marked(u) && c in tables && c.name != u.name && References(c, ccol, u.name)
                          && e.table == c.name && NeededWhere(run.marks, u, d.where, c, ccol, e.where);
        assert u == t;
        assert e == Delete(c.name, InSub(ccol, t.name, IdColumn(t).value, col, chunk));
      }
    }
  }

  /** The deletes of one chunk of blobs are in the plan. */
  ghost predicate ChunkPlanned(tables: seq<Table>, plan: seq<Delete>, chunk: seq<int>) {
    && (forall t, col :: t in tables && BlobDerived(t, col) ==> Delete(t.name, In(col, chunk)) in plan)
    && (forall t, col, c, ccol :: t in tables && BlobDerived(t, col) && Marked(t) && c in tables && References(c, ccol, t.name) ==>
          Delete(c.name, InSub(ccol, t.name, IdColumn(t).value, col, chunk)) in plan)
  }

  method AddChunk(tables: seq<Table>, ghost run: Run, plan: seq<Delete>, derived: seq<(Table, string)>, chunk: seq<int>)
    returns (plan': seq<Delete>)
    requires Sound(tables) && Partial(tables, run, plan)
    requires forall t, col :: (t, col) in derived <==> t in tables && BlobDerived(t, col)
    requires forall v :: v in chunk ==> v in run.blobs
    ensures Partial(tables, run, plan') && plan <= plan' && ChunkPlanned(tables, plan', chunk)
  {
    hide Sound, Partial;
    plan' := plan;
    for i := 0 to |derived|
      invariant Partial(tables, run, plan') && plan <= plan'
      invariant forall k :: 0 <= k < i ==> Delete(derived[k].0.name, In(derived[k].1, chunk)) in plan'
      invariant forall k, c, ccol :: 0 <= k < i && Marked(derived[k].0) && c in tables && References(c, ccol, derived[k].0.name) ==>
                  Delete(c.name, InSub(ccol, derived[k].0.name, IdColumn(derived[k].0).value, derived[k].1, chunk)) in plan'
    {
      var t, col := derived[i].0, derived[i].1;
      assert (t, col) in derived;
      plan' := AddDerived(tables, run, plan', t, col, chunk);
    }
    forall t, col | t in tables && BlobDerived(t, col)
      ensures Delete(t.name, In(col, chunk)) in plan'
      ensures Marked(t) ==> forall c, ccol :: c in tables && References(c, ccol, t.name) ==>
                Delete(c.name, InSub(ccol, t.name, IdColumn(t).value, col, chunk)) in plan'
    {
      assert (t, col) in derived;
      var k :| 0 <= k < |derived| && derived[k] == (t, col);
    }
  }

  /** The blob ids of the run, as a list without repeats. */
  method Enumerate(blobs: set<int>) returns (ids: seq<int>)
    ensures forall b :: b in ids <==> b in blobs
  {
    ids := [];
    var rest := blobs;
    while rest != {}
      invariant forall b :: b in blobs <==> b in ids || b in rest
      decreases |rest|
    {
      var b := Pick(rest);
      ids := ids + [b];
      rest := rest - {b};
    }
  }

  /** Step 1: rows derived from the blobs the run parsed, `IN_CHUNK` blobs at a time. */
  method AddBlobs(tables: seq<Table>, ghost run: Run, blobs: set<int>, plan: seq<Delete>) returns (plan': seq<Delete>)
    requires Sound(tables) && Partial(tables, run, plan) && run.blobs == blobs
    ensures Partial(tables, run, plan') && plan <= plan'
    ensures forall b :: b in blobs ==> exists chunk :: b in chunk && ChunkPlanned(tables, plan', chunk)
  {
    hide Sound, Partial, ChunkPlanned;
    var ids := Enumerate(blobs);
    var derived := BlobDerivedTables(tables);
    plan' := plan;
    var i := 0;
    while i < |ids|
      invariant 0 <= i <= |ids|
      invariant Partial(tables, run, plan') && plan <= plan'
      invariant forall k :: 0 <= k < i ==> exists chunk :: ids[k] in chunk && ChunkPlanned(tables, plan', chunk)
      decreases |ids| - i
    {
      var end := if i + IN_CHUNK <= |ids| then i + IN_CHUNK else |ids|;
      var chunk := ids[i..end];
      ghost var before := plan';
      plan' := AddChunk(tables, run, plan', derived, chunk);
      forall k | 0 <= k < end ensures exists chunk' :: ids[k] in chunk' && ChunkPlanned(tables, plan', chunk') {
        if k < i {
          var chunk' :| ids[k] in chunk' && ChunkPlanned(tables, before, chunk');
          ChunkStays(tables, before, plan', chunk');
        } else {
          assert ids[k] == chunk[k - i];
        }
      }
      i := end;
    }
  }

  lemma {:induction false} ChunkStays(tables: seq<Table>, before: seq<Delete>, after: seq<Delete>, chunk: seq<int>)
    requires before <= after && ChunkPlanned(tables, before, chunk)
    ensures ChunkPlanned(tables, after, chunk)
  {
  }

  // ---------------------------------------------------------------- step 2

  /** The delete of a marked table's new rows. */
  function OwnAbove(marks: map<string, int>, t: Table): Delete
    requires Marked(t) && t.name in marks
  {
    Delete(t.name, Above(IdColumn(t).value, marks[t.name]))
  }

  ghost predicate MarkPlanned(tables: seq<Table>, marks: map<string, int>, plan: seq<Delete>, t: Table)
    requires Marked(t) && t.name in marks
  {
    && OwnAbove(marks, t) in plan
    && forall c, ccol :: c in tables && References(c, ccol, t.name) && !Marked(c) ==> Delete(c.name, Above(ccol, marks[t.name])) in plan
  }

  lemma {:induction false} LinkPlanned(tables: seq<Table>, run: Run, plan: seq<Delete>, t: Table, c: Table, ccol: string)
    requires Sound(tables) && t in tables && Marked(t) && t.name in run.marks && c in tables && !Marked(c) && References(c, ccol, t.name)
    ensures Planned(tables, run, Delete(c.name, Above(ccol, run.marks[t.name])))
    ensures forall e :: Needs(tables, run.marks, Delete(c.name, Above(ccol, run.marks[t.name])), e) ==> e in plan
  {
    var d := Delete(c.name, Above(ccol, run.marks[t.name]));
    KnownTable(tables, c);
    assert AboveOf(tables, run.marks, c, d.where);
    assert PlannedAbove(tables, run, d);
    forall e ensures !Needs(tables, run.marks, d, e) {
      UnmarkedNeedsNothing(tables, run.marks, c, d, e);
    }
  }

  lemma {:induction false} MarkedPlanned(tables: seq<Table>, run: Run, plan: seq<Delete>, t: Table)
    requires Sound(tables) && MarksFor(tables, run.marks) && t in tables && Marked(t) && t.name in run.marks
    requires forall c, ccol :: c in tables && References(c, ccol, t.name) && !Marked(c) ==> Delete(c.name, Above(ccol, run.marks[t.name])) in plan
    requires forall c :: c in tables && Marked(c) && RefersTo(c, t) ==> c.name in run.marks && OwnAbove(run.marks, c) in plan
    ensures Planned(tables, run, OwnAbove(run.marks, t))
    ensures forall e :: Needs(tables, run.marks, OwnAbove(run.marks, t), e) ==> e in plan
  {
    var d := OwnAbove(run.marks, t);
    KnownTable(tables, t);
    assert AboveOf(tables, run.marks, t, d.where);
    assert PlannedAbove(tables, run, d);
    forall e | Needs(tables, run.marks, d, e) ensures e in plan {
      var u, c, ccol :| u in tables && u.name == d.table && Marked(u) && c in tables && c.name != u.name && References(c, ccol, u.name)
                        && e.table == c.name && NeededWhere(run.marks, u, d.where, c, ccol, e.where);
      assert u == t;
      if Marked(c) {
        assert RefersTo(c, t);
        assert e == OwnAbove(run.marks, c);
      } else {
        assert e == Delete(c.name, Above(ccol, run.marks[t.name]));
      }
    }
  }

  method AddMarked(tables: seq<Table>, run: Run, plan: seq<Delete>, t: Table) returns (plan': seq<Delete>)
    requires Sound(tables) && MarksFor(tables, run.marks) && Partial(tables, run, plan) && t in tables && Marked(t) && t.name in run.marks
    requires forall c :: c in tables && Marked(c) && RefersTo(c, t) ==> c.name in run.marks && OwnAbove(run.marks, c) in plan
    ensures Partial(tables, run, plan') && plan <= plan' && MarkPlanned(tables, run.marks, plan', t)
  {
    hide Partial;
    plan' := plan;
    var mark := run.marks[t.name];
    var children := ChildrenOf(tables, t.name);
    for i := 0 to |children|
      invariant Partial(tables, run, plan') && plan <= plan'
      invariant forall k :: 0 <= k < i && !Marked(children[k].0) ==> Delete(children[k].0.name, Above(children[k].1, mark)) in plan'
    {
      hide Planned, Needs, Sound;
      var c, ccol := children[i].0, children[i].1;
      assert (c, ccol) in children;
      if !(c.name in run.marks && Marked(c)) {
        UnmarkedUnless(tables, run.marks, c);
        LinkPlanned(tables, run, plan', t, c, ccol);
        AppendPartial(tables, run, plan', Delete(c.name, Above(ccol, mark)));
        plan' := plan' + [Delete(c.name, Above(ccol, mark))];
      }
    }
    forall c, ccol | c in tables && References(c, ccol, t.name) && !Marked(c) ensures Delete(c.name, Above(ccol, mark)) in plan' {
      assert (c, ccol) in children;
    }
    MarkedPlanned(tables, run, plan', t);
    AppendPartial(tables, run, plan', OwnAbove(run.marks, t));
    plan' := plan' + [OwnAbove(run.marks, t)];
  }

  lemma {:induction false} UnmarkedUnless(tables: seq<Table>, marks: map<string, int>, c: Table)
    requires MarksFor(tables, marks) && c in tables && !(c.name in marks && Marked(c))
    ensures !Marked(c)
  {
  }

  /** Step 2: rows above the watermarks, link tables first, then the tables themselves, children before parents. */
  method AddMarks(tables: seq<Table>, run: Run, plan: seq<Delete>, ghost rank: map<string, nat>) returns (plan': seq<Delete>)
    requires Sound(tables) && MarksFor(tables, run.marks) && Ranked(tables, rank) && Partial(tables, run, plan)
    ensures Partial(tables, run, plan') && plan <= plan'
    ensures forall t :: t in tables && Marked(t) ==> t.name in run.marks && MarkPlanned(tables, run.marks, plan', t)
  {
    var marked := MarkedTables(tables, run.marks);
    var order := ChildFirstOrder(marked, rank);
    RankedTables(tables, marked, rank);
    plan' := plan;
    for i := 0 to |order|
      invariant Partial(tables, run, plan') && plan <= plan'
      invariant forall k :: 0 <= k < i ==> Marked(order[k]) && order[k].name in run.marks && MarkPlanned(tables, run.marks, plan', order[k])
    {
      var t := order[i];
      assert t in order;
      forall c | c in tables && Marked(c) && RefersTo(c, t) ensures c.name in run.marks && OwnAbove(run.marks, c) in plan' {
        Earlier(tables, run.marks, order, i, c);
      }
      ghost var before := plan';
      hide Partial, Sound, Ranked;
      plan' := AddMarked(tables, run, plan', t);
      forall k | 0 <= k < i ensures MarkPlanned(tables, run.marks, plan', order[k]) {
        MarkStays(tables, run.marks, before, plan', order[k]);
      }
    }
    forall t | t in tables && Marked(t) ensures t.name in run.marks && MarkPlanned(tables, run.marks, plan', t) {
      assert t in order;
    }
  }

  lemma {:induction false} RankedTables(tables: seq<Table>, marked: seq<Table>, rank: map<string, nat>)
    requires Ranked(tables, rank) && forall t :: t in marked ==> t in tables && Marked(t)
    ensures RankedList(marked, rank)
  {
    forall o, t | o in marked && t in marked && RefersTo(o, t) ensures o.name in rank && t.name in rank && rank[o.name] > rank[t.name] {
      var i :| 0 <= i < |o.foreign| && o.foreign[i].parent == t.name;
      assert References(o, o.foreign[i].col, t.name);
    }
  }

  lemma {:induction false} MarkStays(tables: seq<Table>, marks: map<string, int>, before: seq<Delete>, after: seq<Delete>, t: Table)
    requires Marked(t) && t.name in marks && before <= after && MarkPlanned(tables, marks, before, t)
    ensures MarkPlanned(tables, marks, after, t)
  {
  }

  lemma {:induction false} Earlier(tables: seq<Table>, marks: map<string, int>, order: seq<Table>, i: nat, c: Table)
    requires MarksFor(tables, marks) && i < |order| && ChildFirst(order)
    requires forall t :: t in order <==> t in tables && Marked(t) && t.name in marks
    requires c in tables && Marked(c) && RefersTo(c, order[i])
    ensures c in order[..i]
  {
    assert c in order;
    var k :| 0 <= k < |order| && order[k] == c;
    assert RefersTo(order[k], order[i]);
    assert k < i;
    assert order[..i][k] == c;
  }

  // ---------------------------------------------------------------- duplicates

  ghost predicate SameDeletes(plan: seq<Delete>, unique: seq<Delete>) {
    && (forall d :: d in plan <==> d in unique)
    && (forall i, j :: 0 <= i < j < |unique| ==> unique[i] != unique[j])
  }

  /** Keep the first of each delete: several parents can share a link table. */
  method Unique(tables: seq<Table>, ghost run: Run, plan: seq<Delete>) returns (unique: seq<Delete>)
    requires Partial(tables, run, plan)
    ensures Partial(tables, run, unique) && SameDeletes(plan, unique)
  {
    unique := [];
    for i := 0 to |plan|
      invariant Partial(tables, run, unique) && SameDeletes(plan[..i], unique)
    {
      assert plan[..i + 1] == plan[..i] + [plan[i]];
      assert Planned(tables, run, plan[i]);
      if Known(tables, plan[i].table) && plan[i] !in unique {
        forall e | Needs(tables, run.marks, plan[i], e) ensures e in unique {
          assert e in plan[..i];
        }
        AppendPartial(tables, run, unique, plan[i]);
        unique := unique + [plan[i]];
      }
    }
    assert plan[..|plan|] == plan;
  }

  // ---------------------------------------------------------------- all of it

  /** The deletes undoing an interrupted run: every condemned row is covered, nothing else is planned, and each delete
      comes after the deletes of the rows that refer to what it removes. */
  method RollbackPlan(tables: seq<Table>, run: Run, ghost rank: map<string, nat>) returns (plan: seq<Delete>)
    requires Sound(tables) && MarksFor(tables, run.marks) && Ranked(tables, rank)
    ensures GoodPlan(tables, run, plan)
    ensures forall i, j :: 0 <= i < j < |plan| ==> plan[i] != plan[j]
  {
    var versions := VersionDeletes(tables, run);
    var derived := AddBlobs(tables, run, run.blobs, versions);
    var marked := AddMarks(tables, run, derived, rank);
    plan := Unique(tables, run, marked);
    CoversAll(tables, run, versions, derived, marked);
    CoversSameDeletes(tables, run, marked, plan);
  }

  /** The version's own rows; a table the schema does not have is left out. */
  method VersionDeletes(tables: seq<Table>, run: Run) returns (plan: seq<Delete>)
    requires Sound(tables)
    ensures Partial(tables, run, plan)
    ensures forall t :: t in tables && t.name in VERSION_ROWS ==> Delete(t.name, Eq(COMMIT_ID, run.commit)) in plan
  {
    plan := [];
    for i := 0 to |VERSION_ROWS|
      invariant Partial(tables, run, plan)
      invariant forall k :: 0 <= k < i && Known(tables, VERSION_ROWS[k]) ==> Delete(VERSION_ROWS[k], Eq(COMMIT_ID, run.commit)) in plan
    {
      var d := Delete(VERSION_ROWS[i], Eq(COMMIT_ID, run.commit));
      if Known(tables, VERSION_ROWS[i]) {
        AppendPartial(tables, run, plan, d);
        plan := plan + [d];
      }
    }
    forall t | t in tables && t.name in VERSION_ROWS ensures Delete(t.name, Eq(COMMIT_ID, run.commit)) in plan {
      KnownTable(tables, t);
    }
  }

  lemma {:induction false} CoversAll(tables: seq<Table>, run: Run, versions: seq<Delete>, derived: seq<Delete>, plan: seq<Delete>)
    requires MarksFor(tables, run.marks) && versions <= derived <= plan
    requires forall t :: t in tables && t.name in VERSION_ROWS ==> Delete(t.name, Eq(COMMIT_ID, run.commit)) in versions
    requires forall b :: b in run.blobs ==> exists chunk :: b in chunk && ChunkPlanned(tables, derived, chunk)
    requires forall t :: t in tables && Marked(t) ==> t.name in run.marks && MarkPlanned(tables, run.marks, plan, t)
    ensures Covers(tables, run, plan)
  {
    forall t, w: Where | t in tables && w.Above? && AboveOf(tables, run.marks, t, w) ensures Delete(t.name, w) in plan {
      if !Marked(t) {
        var p :| p in tables && Marked(p) && p.name in run.marks && References(t, w.col, p.name) && w.value == run.marks[p.name];
        assert MarkPlanned(tables, run.marks, plan, p);
      } else {
        assert MarkPlanned(tables, run.marks, plan, t);
      }
    }
    forall b | b in run.blobs ensures exists chunk :: b in chunk && ChunkPlanned(tables, plan, chunk) {
      var chunk :| b in chunk && ChunkPlanned(tables, derived, chunk);
      ChunkStays(tables, derived, plan, chunk);
    }
  }

  lemma {:induction false} CoversSameDeletes(tables: seq<Table>, run: Run, plan: seq<Delete>, unique: seq<Delete>)
    requires Covers(tables, run, plan) && SameDeletes(plan, unique)
    ensures Covers(tables, run, unique)
  {
    forall t, col, b | t in tables && BlobDerived(t, col) && b in run.blobs
      ensures exists values :: b in values && Delete(t.name, In(col, values)) in unique
    {
      var values :| b in values && Delete(t.name, In(col, values)) in plan;
      assert Delete(t.name, In(col, values)) in unique;
    }
    forall t, col, c, ccol, b | t in tables && BlobDerived(t, col) && Marked(t) && c in tables && References(c, ccol, t.name) && b in run.blobs
      ensures exists values :: b in values && Delete(c.name, InSub(ccol, t.name, IdColumn(t).value, col, values)) in unique
    {
      var values :| b in values && Delete(c.name, InSub(ccol, t.name, IdColumn(t).value, col, values)) in plan;
      assert Delete(c.name, InSub(ccol, t.name, IdColumn(t).value, col, values)) in unique;
    }
  }
}
