/** Running a rollback plan: any set of matching rows may be gone when a run is cut. References stay intact at every
    cut, a complete run leaves the database without the run's rows, and a run that starts over ends in the same place. */
module RollbackRun {
  import opened IngestSchema

  // ---------------------------------------------------------------- what a plan must be

  /** A delete the plan may contain, and why. */
  ghost predicate Planned(tables: seq<Table>, run: Run, d: Delete) {
    && Known(tables, d.table)
    && (|| (d.table in VERSION_ROWS && d.where == Eq(COMMIT_ID, run.commit))
        || PlannedIn(tables, run, d)
        || PlannedInSub(tables, run, d)
        || PlannedAbove(tables, run, d))
  }

  predicate Known(tables: seq<Table>, name: string) {
    exists i :: 0 <= i < |tables| && tables[i].name == name
  }

  ghost predicate PlannedIn(tables: seq<Table>, run: Run, d: Delete) {
    && d.where.In?
    && (forall v :: v in d.where.values ==> v in run.blobs)
    && exists t :: t in tables && t.name == d.table && BlobDerived(t, d.where.col)
  }

  ghost predicate PlannedInSub(tables: seq<Table>, run: Run, d: Delete) {
    && d.where.InSub?
    && (forall v :: v in d.where.values ==> v in run.blobs)
    && exists t, c :: t in tables && c in tables && t.name == d.where.sub && c.name == d.table && Marked(t)
                      && IdColumn(t).value == d.where.pk && BlobDerived(t, d.where.subCol) && References(c, d.where.col, t.name)
  }

  ghost predicate PlannedAbove(tables: seq<Table>, run: Run, d: Delete) {
    && d.where.Above?
    && exists t :: t in tables && t.name == d.table && AboveOf(tables, run.marks, t, d.where)
  }

  /** The id of a marked table, or a link table's reference to one, lies above the mark. */
  ghost predicate AboveOf(tables: seq<Table>, marks: map<string, int>, t: Table, w: Where)
    requires w.Above?
  {
    if Marked(t) then t.name in marks && w == Above(IdColumn(t).value, marks[t.name])
    else exists p :: p in tables && Marked(p) && p.name in marks && References(t, w.col, p.name) && w.value == marks[p.name]
  }

  /** Everything condemned is covered by some delete. */
  ghost predicate Covers(tables: seq<Table>, run: Run, plan: seq<Delete>) {
    && (forall t :: t in tables && t.name in VERSION_ROWS ==> Delete(t.name, Eq(COMMIT_ID, run.commit)) in plan)
    && (forall t, col, b :: t in tables && BlobDerived(t, col) && b in run.blobs ==>
          exists values :: b in values && Delete(t.name, In(col, values)) in plan)
    && (forall t, col, c, ccol, b :: t in tables && BlobDerived(t, col) && Marked(t) && c in tables && References(c, ccol, t.name) && b in run.blobs ==>
          exists values :: b in values && Delete(c.name, InSub(ccol, t.name, IdColumn(t).value, col, values)) in plan)
    && (forall t, w: Where :: t in tables && w.Above? && AboveOf(tables, run.marks, t, w) ==> Delete(t.name, w) in plan)
  }

  /** `e` has to come before `d`, because `d` removes rows that the rows `e` removes refer to. */
  ghost predicate Needs(tables: seq<Table>, marks: map<string, int>, d: Delete, e: Delete) {
    exists t, c, ccol :: t in tables && t.name == d.table && Marked(t) && c in tables && c.name != t.name && References(c, ccol, t.name)
                         && e.table == c.name && NeededWhere(marks, t, d.where, c, ccol, e.where)
  }

  ghost predicate NeededWhere(marks: map<string, int>, t: Table, w: Where, c: Table, ccol: string, needed: Where)
    requires Marked(t)
  {
    match w
    case In(col, values) => BlobDerived(t, col) && needed == InSub(ccol, t.name, IdColumn(t).value, col, values)
    case Above(col, value) =>
      col == IdColumn(t).value && needed == if Marked(c) then Above(IdColumn(c).value, if c.name in marks then marks[c.name] else 0) else Above(ccol, value)
    case _ => false
  }

  ghost predicate Ordered(tables: seq<Table>, marks: map<string, int>, plan: seq<Delete>) {
    forall i, e :: 0 <= i < |plan| && Needs(tables, marks, plan[i], e) ==> e in plan[..i]
  }

  ghost predicate GoodPlan(tables: seq<Table>, run: Run, plan: seq<Delete>) {
    && (forall i :: 0 <= i < |plan| ==> Planned(tables, run, plan[i]))
    && Covers(tables, run, plan)
    && Ordered(tables, run.marks, plan)
  }

  // ---------------------------------------------------------------- steps

  /** The rows left, and the step being executed. */
  datatype State = State(db: Rows, step: nat)

  /** One committed chunk of the current delete, or moving on once the delete matches nothing. */
  ghost predicate Next(plan: seq<Delete>, s: State, s': State) {
    && s.step < |plan|
    && var d := plan[s.step];
       || (s'.step == s.step && RemovesSome(s.db, d, s'.db))
       || (s'.step == s.step + 1 && s'.db == s.db && Spent(s.db, d))
  }

  /** Only rows of the delete's table that match it are gone. */
  ghost predicate RemovesSome(db: Rows, d: Delete, db': Rows) {
    && (forall name, r :: name != d.table ==> (r in RowsOf(db', name) <==> r in RowsOf(db, name)))
    && (forall r :: r in RowsOf(db', d.table) ==> r in RowsOf(db, d.table))
    && (forall r :: r in RowsOf(db, d.table) && r !in RowsOf(db', d.table) ==> Matches(db, d.where, r))
  }

  ghost predicate Trace(plan: seq<Delete>, trace: seq<State>) {
    && trace != []
    && trace[0].step == 0
    && forall i :: 0 <= i < |trace| - 1 ==> Next(plan, trace[i], trace[i + 1])
  }

  // ---------------------------------------------------------------- the invariant

  /** The database a rollback may start from. */
  ghost predicate Startable(tables: seq<Table>, run: Run, db: Rows) {
    Sound(tables) && MarksFor(tables, run.marks) && Intact(tables, db) && UniqueIds(tables, db) && Prechecked(tables, run.marks, db)
  }

  ghost predicate Inv(tables: seq<Table>, run: Run, plan: seq<Delete>, before: Rows, s: State) {
    && s.step <= |plan|
    && Below(s.db, before)
    && Intact(tables, s.db)
    && (forall j :: 0 <= j < s.step ==> Spent(s.db, plan[j]))
    && (forall t, r :: t in tables && r in RowsOf(before, t.name) && r !in RowsOf(s.db, t.name) ==> Condemned(tables, run, before, t, r))
  }

  lemma {:induction false} MatchesShrinks(db: Rows, db': Rows, w: Where, r: Row)
    requires Below(db', db) && Matches(db', w, r)
    ensures Matches(db, w, r)
  {
  }

  lemma {:induction false} SpentStays(db: Rows, db': Rows, d: Delete)
    requires Below(db', db) && Spent(db, d)
    ensures Spent(db', d)
  {
    forall r | r in RowsOf(db', d.table) ensures !Matches(db', d.where, r) {
      if Matches(db', d.where, r) {
        MatchesShrinks(db, db', d.where, r);
      }
    }
  }

  /** What a planned delete matches is condemned. */
  lemma {:induction false} MatchedIsCondemned(tables: seq<Table>, run: Run, db: Rows, d: Delete, t: Table, r: Row)
    requires Sound(tables) && Planned(tables, run, d) && t in tables && t.name == d.table && Matches(db, d.where, r)
    ensures Condemned(tables, run, db, t, r)
  {
  }

  lemma {:induction false} CondemnedShrinks(tables: seq<Table>, run: Run, db: Rows, db': Rows, t: Table, r: Row)
    requires Below(db', db) && Condemned(tables, run, db', t, r)
    ensures Condemned(tables, run, db, t, r)
  {
  }

  lemma {:induction false} EarlierSpent(tables: seq<Table>, run: Run, plan: seq<Delete>, before: Rows, s: State, e: Delete)
    requires Ordered(tables, run.marks, plan) && Inv(tables, run, plan, before, s) && s.step < |plan|
    requires Needs(tables, run.marks, plan[s.step], e)
    ensures Spent(s.db, e)
  {
    assert e in plan[..s.step];
  }

  /** A delete on a marked table selects derived rows or ids above the mark. */
  lemma {:induction false} MarkedWhere(tables: seq<Table>, run: Run, d: Delete, t: Table)
    requires Sound(tables) && MarksFor(tables, run.marks) && Planned(tables, run, d) && t in tables && t.name == d.table && Marked(t)
    ensures (d.where.In? && BlobDerived(t, d.where.col)) || d.where == Above(IdColumn(t).value, run.marks[t.name])
  {
  }

  /** Rows referring to derived rows that are about to go match the delete on their own table, which ran before. */
  lemma {:induction false} DerivedUnreferenced(tables: seq<Table>, run: Run, plan: seq<Delete>, before: Rows, s: State, t: Table, c: Table,
                                               col: string, r: Row, p: Row)
    requires Ordered(tables, run.marks, plan) && Inv(tables, run, plan, before, s) && s.step < |plan|
    requires t in tables && t.name == plan[s.step].table && Marked(t) && c in tables && c.name != t.name && References(c, col, t.name)
    requires plan[s.step].where.In? && BlobDerived(t, plan[s.step].where.col)
    requires r in RowsOf(s.db, c.name) && p in RowsOf(s.db, t.name) && Matches(s.db, plan[s.step].where, p)
    ensures p.At(IdColumn(t).value) != r.At(col)
  {
    var w := plan[s.step].where;
    var e := Delete(c.name, InSub(col, t.name, IdColumn(t).value, w.col, w.values));
    assert NeededWhere(run.marks, t, w, c, col, e.where);
    EarlierSpent(tables, run, plan, before, s, e);
    assert !Matches(s.db, e.where, r);
  }

  /** Rows referring to ids above the mark went with their own mark, or as link rows; older ones fail the precheck. */
  lemma {:induction false} AboveUnreferenced(tables: seq<Table>, run: Run, plan: seq<Delete>, before: Rows, s: State, t: Table, c: Table,
                                             col: string, r: Row, p: Row)
    requires MarksFor(tables, run.marks) && Prechecked(tables, run.marks, before)
    requires Ordered(tables, run.marks, plan) && Inv(tables, run, plan, before, s) && s.step < |plan|
    requires t in tables && t.name == plan[s.step].table && Marked(t) && c in tables && c.name != t.name && References(c, col, t.name)
    requires plan[s.step].where == Above(IdColumn(t).value, run.marks[t.name])
    requires r in RowsOf(s.db, c.name) && p in RowsOf(s.db, t.name) && Matches(s.db, plan[s.step].where, p)
    ensures p.At(IdColumn(t).value) != r.At(col)
  {
    var w := plan[s.step].where;
    var e := Delete(c.name, if Marked(c) then Above(IdColumn(c).value, run.marks[c.name]) else Above(col, w.value));
    assert NeededWhere(run.marks, t, w, c, col, e.where);
    EarlierSpent(tables, run, plan, before, s, e);
    assert !Matches(s.db, e.where, r);
    if Marked(c) {
      assert r in RowsOf(before, c.name);
      var i :| 0 <= i < |c.foreign| && c.foreign[i].col == col && c.foreign[i].parent == t.name;
      assert TablePrechecked(c, run.marks, before) && OlderRefersOlder(run.marks, c, r, i);
    }
  }

  /** No row left refers to a row the current delete removes. */
  lemma {:induction false} NothingRefers(tables: seq<Table>, run: Run, plan: seq<Delete>, before: Rows, s: State, t: Table, c: Table, i: nat, r: Row, p: Row)
    requires Startable(tables, run, before) && GoodPlan(tables, run, plan) && Inv(tables, run, plan, before, s) && s.step < |plan|
    requires t in tables && t.name == plan[s.step].table
    requires c in tables && i < |c.foreign| && c.foreign[i].parent == t.name
    requires r in RowsOf(s.db, c.name) && p in RowsOf(s.db, t.name) && Matches(s.db, plan[s.step].where, p)
    ensures p.At(c.foreign[i].pcol) != r.At(c.foreign[i].col)
  {
    var d, col := plan[s.step], c.foreign[i].col;
    assert Planned(tables, run, d);
    ReferenceTo(tables, run, d, t, c, i);
    MarkedWhere(tables, run, d, t);
    assert MarksFor(tables, run.marks) && Prechecked(tables, run.marks, before) && Ordered(tables, run.marks, plan);
    hide *;
    if d.where.In? {
      DerivedUnreferenced(tables, run, plan, before, s, t, c, col, r, p);
    } else {
      AboveUnreferenced(tables, run, plan, before, s, t, c, col, r, p);
    }
  }

  /** A table whose rows are deleted and referenced has an allocated id, which the reference holds. */
  lemma {:induction false} ReferenceTo(tables: seq<Table>, run: Run, d: Delete, t: Table, c: Table, i: nat)
    requires Sound(tables) && Planned(tables, run, d) && t in tables && t.name == d.table
    requires c in tables && i < |c.foreign| && c.foreign[i].parent == t.name
    ensures Marked(t) && c.name != t.name && c.foreign[i].pcol == IdColumn(t).value && References(c, c.foreign[i].col, t.name)
  {
    if !Marked(t) {
      UnmarkedIsCleared(tables, run, d, t);
      assert false;
    }
  }

  lemma {:induction false} UnmarkedIsCleared(tables: seq<Table>, run: Run, d: Delete, t: Table)
    requires Sound(tables) && Planned(tables, run, d) && t in tables && t.name == d.table && !Marked(t)
    ensures Cleared(tables, t)
  {
  }

  lemma {:induction false} ReferenceKept(tables: seq<Table>, run: Run, plan: seq<Delete>, before: Rows, s: State, db': Rows, t: Table, c: Table,
                                         i: nat, r: Row)
    requires Startable(tables, run, before) && GoodPlan(tables, run, plan) && Inv(tables, run, plan, before, s) && s.step < |plan|
    requires RemovesSome(s.db, plan[s.step], db') && t in tables && t.name == plan[s.step].table
    requires c in tables && i < |c.foreign| && r in RowsOf(db', c.name)
    ensures RefOk(db', c.foreign[i], r)
  {
    assert r in RowsOf(s.db, c.name);
    assert RefersOk(s.db, c, r) && RefOk(s.db, c.foreign[i], r);
    var p :| p in RowsOf(s.db, c.foreign[i].parent) && p.At(c.foreign[i].pcol) == r.At(c.foreign[i].col);
    if c.foreign[i].parent == t.name && Matches(s.db, plan[s.step].where, p) {
      NothingRefers(tables, run, plan, before, s, t, c, i, r, p);
    }
    assert p in RowsOf(db', c.foreign[i].parent);
  }

  /** Integrity survives every chunk. */
  lemma {:induction false} ChunkIntact(tables: seq<Table>, run: Run, plan: seq<Delete>, before: Rows, s: State, db': Rows)
    requires Startable(tables, run, before) && GoodPlan(tables, run, plan) && Inv(tables, run, plan, before, s) && s.step < |plan|
    requires RemovesSome(s.db, plan[s.step], db')
    ensures Intact(tables, db')
  {
    var d := plan[s.step];
    assert Planned(tables, run, d);
    var k :| 0 <= k < |tables| && tables[k].name == d.table;
    hide GoodPlan, Inv, Startable, Planned, RemovesSome, RefersOk;
    forall c, r | c in tables && r in RowsOf(db', c.name) ensures RefersOk(db', c, r) {
      RowKept(tables, run, plan, before, s, db', tables[k], c, r);
    }
  }

  lemma {:induction false} RowKept(tables: seq<Table>, run: Run, plan: seq<Delete>, before: Rows, s: State, db': Rows, t: Table, c: Table, r: Row)
    requires Startable(tables, run, before) && GoodPlan(tables, run, plan) && Inv(tables, run, plan, before, s) && s.step < |plan|
    requires RemovesSome(s.db, plan[s.step], db') && t in tables && t.name == plan[s.step].table
    requires c in tables && r in RowsOf(db', c.name)
    ensures RefersOk(db', c, r)
  {
    hide GoodPlan, Inv, Startable, RemovesSome;
    forall i | 0 <= i < |c.foreign| ensures RefOk(db', c.foreign[i], r) {
      ReferenceKept(tables, run, plan, before, s, db', t, c, i, r);
    }
  }

  lemma {:induction false} RemovedCondemned(tables: seq<Table>, run: Run, plan: seq<Delete>, before: Rows, s: State, db': Rows, t: Table, r: Row)
    requires Sound(tables) && GoodPlan(tables, run, plan) && Inv(tables, run, plan, before, s) && s.step < |plan|
    requires RemovesSome(s.db, plan[s.step], db')
    requires t in tables && r in RowsOf(before, t.name) && r !in RowsOf(db', t.name)
    ensures Condemned(tables, run, before, t, r)
  {
    if r in RowsOf(s.db, t.name) {
      assert Planned(tables, run, plan[s.step]);
      MatchedIsCondemned(tables, run, s.db, plan[s.step], t, r);
      CondemnedShrinks(tables, run, before, s.db, t, r);
    }
  }

  lemma {:induction false} RemovesBelow(db: Rows, d: Delete, db': Rows)
    requires RemovesSome(db, d, db')
    ensures Below(db', db)
  {
  }

  lemma {:induction false} ChunkKeeps(tables: seq<Table>, run: Run, plan: seq<Delete>, before: Rows, s: State, db': Rows)
    requires Startable(tables, run, before) && GoodPlan(tables, run, plan) && Inv(tables, run, plan, before, s) && s.step < |plan|
    requires RemovesSome(s.db, plan[s.step], db')
    ensures Inv(tables, run, plan, before, State(db', s.step))
  {
    ChunkIntact(tables, run, plan, before, s, db');
    RemovesBelow(s.db, plan[s.step], db');
    forall j | 0 <= j < s.step ensures Spent(db', plan[j]) {
      SpentStays(s.db, db', plan[j]);
    }
    forall t, r | t in tables && r in RowsOf(before, t.name) && r !in RowsOf(db', t.name) ensures Condemned(tables, run, before, t, r) {
      RemovedCondemned(tables, run, plan, before, s, db', t, r);
    }
    hide GoodPlan, Startable, RemovesSome, Condemned, Intact, Spent;
  }

  lemma {:induction false} StepKeeps(tables: seq<Table>, run: Run, plan: seq<Delete>, before: Rows, s: State, s': State)
    requires Startable(tables, run, before) && GoodPlan(tables, run, plan) && Inv(tables, run, plan, before, s) && Next(plan, s, s')
    ensures Inv(tables, run, plan, before, s')
  {
    hide Startable, GoodPlan, RemovesSome, Spent, Condemned, Intact;
    if s'.step == s.step {
      ChunkKeeps(tables, run, plan, before, s, s'.db);
    }
  }

  lemma {:induction false} TraceKeeps(tables: seq<Table>, run: Run, plan: seq<Delete>, trace: seq<State>)
    requires GoodPlan(tables, run, plan) && Trace(plan, trace) && Startable(tables, run, trace[0].db)
    ensures Inv(tables, run, plan, trace[0].db, trace[|trace|-1])
    decreases |trace|
  {
    if |trace| > 1 {
      var front := trace[..|trace|-1];
      TraceKeeps(tables, run, plan, front);
      StepKeeps(tables, run, plan, trace[0].db, trace[|trace|-2], trace[|trace|-1]);
    }
  }

  // ---------------------------------------------------------------- theorems

  /** However the rollback is cut, after any committed chunk, no foreign key points at a missing row. */
  lemma {:induction false} CutIsIntact(tables: seq<Table>, run: Run, plan: seq<Delete>, trace: seq<State>)
    requires GoodPlan(tables, run, plan) && Trace(plan, trace) && Startable(tables, run, trace[0].db)
    ensures forall i :: 0 <= i < |trace| ==> Intact(tables, trace[i].db)
  {
    forall i | 0 <= i < |trace| ensures Intact(tables, trace[i].db) {
      TraceKeeps(tables, run, plan, trace[..i + 1]);
    }
  }

  /** A condemned row that is still there would match a delete of the plan. */
  lemma {:induction false} CondemnedMatches(tables: seq<Table>, run: Run, plan: seq<Delete>, db: Rows, t: Table, r: Row)
    requires Sound(tables) && MarksFor(tables, run.marks) && Covers(tables, run, plan)
    requires t in tables && r in RowsOf(db, t.name) && Condemned(tables, run, db, t, r)
    ensures exists i :: 0 <= i < |plan| && !Spent(db, plan[i])
  {
    var d :| d in plan && d.table == t.name && Matches(db, d.where, r) by {
      if t.name in VERSION_ROWS && r.At(COMMIT_ID) == run.commit {
        assert Matches(db, Eq(COMMIT_ID, run.commit), r);
      } else if exists col :: BlobDerived(t, col) && r.At(col) in run.blobs {
        var col :| BlobDerived(t, col) && r.At(col) in run.blobs;
        var values :| r.At(col) in values && Delete(t.name, In(col, values)) in plan;
        assert Matches(db, In(col, values), r);
      } else if HangsOff(tables, db, run.blobs, t, r) {
        HangingMatches(tables, run, plan, db, t, r);
      } else {
        AboveMatches(tables, run, plan, db, t, r);
      }
    }
    var i :| 0 <= i < |plan| && plan[i] == d;
    assert !Spent(db, plan[i]);
  }

  lemma {:induction false} HangingMatches(tables: seq<Table>, run: Run, plan: seq<Delete>, db: Rows, t: Table, r: Row)
    requires Covers(tables, run, plan) && t in tables && HangsOff(tables, db, run.blobs, t, r)
    ensures exists d :: d in plan && d.table == t.name && Matches(db, d.where, r)
  {
    var p, pcol, col, s :| p in tables && Marked(p) && BlobDerived(p, pcol) && References(t, col, p.name)
                           && s in RowsOf(db, p.name) && s.At(pcol) in run.blobs && s.At(IdColumn(p).value) == r.At(col);
    var values :| s.At(pcol) in values && Delete(t.name, InSub(col, p.name, IdColumn(p).value, pcol, values)) in plan;
    assert Matches(db, InSub(col, p.name, IdColumn(p).value, pcol, values), r);
  }

  lemma {:induction false} AboveMatches(tables: seq<Table>, run: Run, plan: seq<Delete>, db: Rows, t: Table, r: Row)
    requires Covers(tables, run, plan) && t in tables && AboveMarks(tables, run.marks, t, r)
    ensures exists d :: d in plan && d.table == t.name && Matches(db, d.where, r)
  {
    var w;
    if Marked(t) {
      w := Above(IdColumn(t).value, run.marks[t.name]);
    } else {
      var p, col :| p in tables && Marked(p) && p.name in run.marks && References(t, col, p.name) && r.At(col) > run.marks[p.name];
      w := Above(col, run.marks[p.name]);
    }
    assert AboveOf(tables, run.marks, t, w) && Matches(db, w, r);
    assert Delete(t.name, w) in plan;
  }

  /** Rows deleted so far do not change which of the remaining rows are condemned. */
  lemma {:induction false} CondemnedStable(tables: seq<Table>, run: Run, before: Rows, db: Rows, t: Table, r: Row)
    requires Sound(tables) && UniqueIds(tables, before) && Below(db, before) && Intact(tables, db)
    requires t in tables && r in RowsOf(db, t.name)
    ensures Condemned(tables, run, db, t, r) <==> Condemned(tables, run, before, t, r)
  {
    if Condemned(tables, run, db, t, r) {
      CondemnedShrinks(tables, run, before, db, t, r);
    }
    if HangsOff(tables, before, run.blobs, t, r) {
      HangsOffStable(tables, run, before, db, t, r);
    }
  }

  /** A row that still exists refers to a row that still exists, and ids are unique. */
  lemma {:induction false} HangsOffStable(tables: seq<Table>, run: Run, before: Rows, db: Rows, t: Table, r: Row)
    requires Sound(tables) && UniqueIds(tables, before) && Below(db, before) && Intact(tables, db)
    requires t in tables && r in RowsOf(db, t.name) && HangsOff(tables, before, run.blobs, t, r)
    ensures HangsOff(tables, db, run.blobs, t, r)
  {
    var p, pcol, col, s :| p in tables && Marked(p) && BlobDerived(p, pcol) && References(t, col, p.name)
                           && s in RowsOf(before, p.name) && s.At(pcol) in run.blobs && s.At(IdColumn(p).value) == r.At(col);
    ParentKept(tables, before, db, t, r, p, col, s);
  }

  lemma {:induction false} ParentKept(tables: seq<Table>, before: Rows, db: Rows, t: Table, r: Row, p: Table, col: string, s: Row)
    requires Sound(tables) && UniqueIds(tables, before) && Below(db, before) && Intact(tables, db)
    requires t in tables && r in RowsOf(db, t.name) && p in tables && Marked(p) && References(t, col, p.name)
    requires s in RowsOf(before, p.name) && s.At(IdColumn(p).value) == r.At(col)
    ensures s in RowsOf(db, p.name)
  {
    var s' := ParentOf(tables, db, t, r, p, col);
    assert s' in RowsOf(before, p.name);
    SameId(tables, before, p, s, s');
  }

  lemma {:induction false} ParentOf(tables: seq<Table>, db: Rows, t: Table, r: Row, p: Table, col: string) returns (s: Row)
    requires Sound(tables) && Intact(tables, db)
    requires t in tables && r in RowsOf(db, t.name) && p in tables && Marked(p) && References(t, col, p.name)
    ensures s in RowsOf(db, p.name) && s.At(IdColumn(p).value) == r.At(col)
  {
    var i :| 0 <= i < |t.foreign| && t.foreign[i].col == col && t.foreign[i].parent == p.name;
    ParentColumn(tables, t, i, p);
    ReferenceOk(tables, db, t, r, i);
    hide Sound, Intact;
    s :| s in RowsOf(db, p.name) && s.At(t.foreign[i].pcol) == r.At(col);
  }

  lemma {:induction false} ParentColumn(tables: seq<Table>, t: Table, i: nat, p: Table)
    requires Sound(tables) && t in tables && i < |t.foreign| && p in tables && p.name == t.foreign[i].parent && Marked(p)
    ensures t.foreign[i].pcol == IdColumn(p).value
  {
  }

  lemma {:induction false} ReferenceOk(tables: seq<Table>, db: Rows, t: Table, r: Row, i: nat)
    requires Intact(tables, db) && t in tables && r in RowsOf(db, t.name) && i < |t.foreign|
    ensures RefOk(db, t.foreign[i], r)
  {
    assert RefersOk(db, t, r);
  }

  lemma {:induction false} SameId(tables: seq<Table>, db: Rows, p: Table, s: Row, s': Row)
    requires UniqueIds(tables, db) && p in tables && Marked(p) && s in RowsOf(db, p.name) && s' in RowsOf(db, p.name)
    requires s.At(IdColumn(p).value) == s'.At(IdColumn(p).value)
    ensures s == s'
  {
  }

  /** A complete rollback leaves exactly the rows that were not the run's: however many chunks each delete took. */
  lemma {:induction false} CompleteIsRolledBack(tables: seq<Table>, run: Run, plan: seq<Delete>, before: Rows, s: State)
    requires Startable(tables, run, before) && GoodPlan(tables, run, plan) && Inv(tables, run, plan, before, s) && s.step == |plan|
    ensures RolledBack(tables, run, before, s.db)
  {
    forall t, r | t in tables && r in RowsOf(before, t.name)
      ensures r in RowsOf(s.db, t.name) <==> !Condemned(tables, run, before, t, r)
    {
      if r in RowsOf(s.db, t.name) && Condemned(tables, run, before, t, r) {
        CondemnedStable(tables, run, before, s.db, t, r);
        CondemnedMatches(tables, run, plan, s.db, t, r);
        assert false;
      }
    }
  }

  /** After a complete rollback no allocated id lies above its mark. */
  lemma {:induction false} NothingAboveMarks(tables: seq<Table>, run: Run, before: Rows, after: Rows, t: Table, r: Row)
    requires MarksFor(tables, run.marks) && RolledBack(tables, run, before, after)
    requires t in tables && Marked(t) && r in RowsOf(after, t.name)
    ensures r.At(IdColumn(t).value) <= run.marks[t.name]
  {
    assert !Condemned(tables, run, before, t, r);
  }

  /** The marks are the highest ids of the database the run started from. */
  ghost predicate TakenFrom(tables: seq<Table>, marks: map<string, int>, pre: Rows) {
    forall t, r :: t in tables && Marked(t) && t.name in marks && r in RowsOf(pre, t.name) ==> r.At(IdColumn(t).value) <= marks[t.name]
  }

  /** A row of the database the run started from lies below the marks, link rows included. */
  lemma {:induction false} OlderIsBelowMarks(tables: seq<Table>, marks: map<string, int>, pre: Rows, t: Table, r: Row)
    requires Sound(tables) && Intact(tables, pre) && TakenFrom(tables, marks, pre)
    requires t in tables && r in RowsOf(pre, t.name)
    ensures !AboveMarks(tables, marks, t, r)
  {
    if !Marked(t) {
      forall p, col | p in tables && Marked(p) && p.name in marks && References(t, col, p.name) ensures r.At(col) <= marks[p.name] {
        OlderReference(tables, marks, pre, t, r, p, col);
      }
    }
  }

  lemma {:induction false} OlderReference(tables: seq<Table>, marks: map<string, int>, pre: Rows, t: Table, r: Row, p: Table, col: string)
    requires Sound(tables) && Intact(tables, pre) && TakenFrom(tables, marks, pre)
    requires t in tables && r in RowsOf(pre, t.name) && p in tables && Marked(p) && p.name in marks && References(t, col, p.name)
    ensures r.At(col) <= marks[p.name]
  {
    var i :| 0 <= i < |t.foreign| && t.foreign[i].col == col && t.foreign[i].parent == p.name;
    assert RefersOk(pre, t, r) && RefOk(pre, t.foreign[i], r);
  }

  /** Every row from before the run survives, except the version's own rows and those of the blobs it parsed again. */
  lemma {:induction false} OlderRowsSurvive(tables: seq<Table>, run: Run, pre: Rows, before: Rows, after: Rows, t: Table, r: Row)
    requires Sound(tables) && Intact(tables, pre) && TakenFrom(tables, run.marks, pre) && RolledBack(tables, run, before, after)
    requires t in tables && r in RowsOf(pre, t.name) && r in RowsOf(before, t.name)
    requires !(t.name in VERSION_ROWS && r.At(COMMIT_ID) == run.commit)
    requires !(exists col :: BlobDerived(t, col) && r.At(col) in run.blobs) && !HangsOff(tables, before, run.blobs, t, r)
    ensures r in RowsOf(after, t.name)
  {
    OlderIsBelowMarks(tables, run.marks, pre, t, r);
  }

  /** The row's own id and its references lie at or below the marks. */
  ghost predicate BelowMarks(marks: map<string, int>, t: Table, r: Row) {
    && (t.name in marks && |t.primary| == 1 && t.name !in {"m_type_descriptor", "m_project", "m_git_network", "m_repository", "m_git_ref"} ==>
          r.At(t.primary[0]) <= marks[t.name])
    && forall i :: 0 <= i < |t.foreign| && t.foreign[i].parent in marks ==> r.At(t.foreign[i].col) <= marks[t.foreign[i].parent]
  }

  /** None of the tables the table references depends on blobs. */
  ghost predicate ParentsWithoutBlobs(tables: seq<Table>, t: Table) {
    forall p, i, k :: p in tables && 0 <= i < |t.foreign| && t.foreign[i].parent == p.name && 0 <= k < |p.foreign| ==> p.foreign[k].parent != "m_file_blob"
  }

  /** Rows that only say what a commit consists of, and rows that have nothing to do with blobs. */
  predicate OfCommits(t: Table) {
    || t.name in {"m_bridge_checkpoint", "m_commit_file", "m_bridge_commit_tag", "m_blob_transition"}
    || forall i :: 0 <= i < |t.foreign| ==> t.foreign[i].parent != "m_file_blob"
  }

  /** Rows describing the version itself. */
  predicate OfVersion(commit: int, t: Table, r: Row) {
    (t.name == "m_bridge_checkpoint" || t.name == "m_arch_root") && r.At("commit_id") == commit
  }

  /** A row that is older than the run and says nothing about what was parsed. */
  ghost predicate OlderCommitRow(tables: seq<Table>, run: Run, t: Table, r: Row) {
    BelowMarks(run.marks, t, r) && ParentsWithoutBlobs(tables, t) && OfCommits(t) && !OfVersion(run.commit, t, r)
  }

  /** Whatever blobs the run recorded, the rows of older commits that refer to them stay. */
  lemma {:induction false} OlderCommitsKeepTheirRows(tables: seq<Table>, run: Run, before: Rows, after: Rows, t: Table, r: Row)
    requires RolledBack(tables, run, before, after) && t in tables && r in RowsOf(before, t.name) && OlderCommitRow(tables, run, t, r)
    ensures r in RowsOf(after, t.name)
  {
    assert !HangsOff(tables, before, run.blobs, t, r);
    assert !AboveMarks(tables, run.marks, t, r);
  }

  /** A row the run wrote or parsed again: of the version, parsed from a recorded blob, or with an id above the table's mark. */
  predicate RunsOwn(run: Run, t: Table, r: Row) {
    || OfVersion(run.commit, t, r)
    || (t.name !in {"m_bridge_checkpoint", "m_commit_file", "m_bridge_commit_tag", "m_blob_transition"}
        && exists i :: 0 <= i < |t.foreign| && t.foreign[i].parent == "m_file_blob" && r.At(t.foreign[i].col) in run.blobs)
    || (HasOwnId(t) && t.name in run.marks && r.At(t.primary[0]) > run.marks[t.name])
  }

  predicate HasOwnId(t: Table) {
    && |t.primary| == 1 && t.name !in {"m_type_descriptor", "m_project", "m_git_network", "m_repository", "m_git_ref"}
    && (exists k :: 0 <= k < |t.columns| && t.columns[k].name == t.primary[0] && t.columns[k].isInt)
    && forall i :: 0 <= i < |t.foreign| ==> t.foreign[i].col != t.primary[0]
  }

  /** None of the run's own rows is left. */
  lemma {:induction false} RunsRowsAreGone(tables: seq<Table>, run: Run, before: Rows, after: Rows, t: Table, r: Row)
    requires RolledBack(tables, run, before, after) && t in tables && r in RowsOf(after, t.name)
    ensures !RunsOwn(run, t, r)
  {
    assert !Condemned(tables, run, before, t, r);
    forall i | 0 <= i < |t.foreign| && t.foreign[i].parent == "m_file_blob" && t.name !in COMMIT_SCOPED ensures r.At(t.foreign[i].col) !in run.blobs {
      assert BlobDerived(t, t.foreign[i].col);
    }
  }

  /** A rollback that is cut anywhere and started over leaves the same rows as one that ran through. */
  lemma {:induction false} Restartable(tables: seq<Table>, run: Run, plan: seq<Delete>, cut: seq<State>, again: seq<State>)
    requires GoodPlan(tables, run, plan) && Trace(plan, cut) && Startable(tables, run, cut[0].db)
    requires Trace(plan, again) && again[0].db == cut[|cut|-1].db && again[|again|-1].step == |plan|
    ensures RolledBack(tables, run, cut[0].db, again[|again|-1].db)
  {
    var before, middle := cut[0].db, again[0].db;
    TraceKeeps(tables, run, plan, cut);
    CutStartable(tables, run, plan, before, cut[|cut|-1]);
    TraceKeeps(tables, run, plan, again);
    CompleteIsRolledBack(tables, run, plan, middle, again[|again|-1]);
    RolledBackTwice(tables, run, before, middle, again[|again|-1].db);
  }

  /** There is one way to be rolled back. */
  lemma {:induction false} OneRollback(tables: seq<Table>, run: Run, before: Rows, a: Rows, b: Rows, t: Table)
    requires RolledBack(tables, run, before, a) && RolledBack(tables, run, before, b) && t in tables
    ensures RowsOf(a, t.name) == RowsOf(b, t.name)
  {
    hide Condemned;
    assert forall r :: r in RowsOf(a, t.name) <==> r in RowsOf(b, t.name);
  }

  /** Cut and started over, or never cut: every table ends up with the same rows. */
  lemma {:induction false} SameAsUninterrupted(tables: seq<Table>, run: Run, plan: seq<Delete>, cut: seq<State>, again: seq<State>, through: seq<State>, t: Table)
    requires GoodPlan(tables, run, plan) && Trace(plan, cut) && Startable(tables, run, cut[0].db) && t in tables
    requires Trace(plan, again) && again[0].db == cut[|cut|-1].db && again[|again|-1].step == |plan|
    requires Trace(plan, through) && through[0].db == cut[0].db && through[|through|-1].step == |plan|
    ensures RowsOf(again[|again|-1].db, t.name) == RowsOf(through[|through|-1].db, t.name)
  {
    hide GoodPlan, RolledBack, Inv, Startable;
    var before := cut[0].db;
    Restartable(tables, run, plan, cut, again);
    TraceKeeps(tables, run, plan, through);
    CompleteIsRolledBack(tables, run, plan, before, through[|through|-1]);
    OneRollback(tables, run, before, again[|again|-1].db, through[|through|-1].db, t);
  }

  /** A cut database meets the conditions the rollback started from. */
  lemma {:induction false} CutStartable(tables: seq<Table>, run: Run, plan: seq<Delete>, before: Rows, s: State)
    requires Startable(tables, run, before) && Inv(tables, run, plan, before, s)
    ensures Startable(tables, run, s.db)
  {
  }

  lemma {:induction false} RolledBackTwice(tables: seq<Table>, run: Run, before: Rows, middle: Rows, after: Rows)
    requires Sound(tables) && UniqueIds(tables, before) && Below(middle, before) && Intact(tables, middle)
    requires forall t, r :: t in tables && r in RowsOf(before, t.name) && r !in RowsOf(middle, t.name) ==> Condemned(tables, run, before, t, r)
    requires RolledBack(tables, run, middle, after)
    ensures RolledBack(tables, run, before, after)
  {
    forall t, r | t in tables && r in RowsOf(before, t.name)
      ensures r in RowsOf(after, t.name) <==> !Condemned(tables, run, before, t, r)
    {
      if r in RowsOf(middle, t.name) {
        CondemnedStable(tables, run, before, middle, t, r);
      }
    }
  }
}
