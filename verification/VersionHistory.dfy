/** Many version runs over one database (core/ingest_state.py): begin, write, record, finish, crash, roll back, and a
    rollback that is itself cut. A finished version never loses a row, as long as a run's head commit is newer than the
    marks of every interrupted run; without that a finished version can be rolled back with an older run. */
module VersionHistory {
  import opened Basics
  import opened IngestSchema
  import opened RollbackRun
  import opened IngestState

  /** The database and bookkeeping, the run in progress, and the rows each version's last run wrote. */
  datatype World = World(db: Rows, marks: map<int, map<string, int>>, blobs: map<int, set<int>>, active: Option<int>,
                         written: map<int, set<(string, Row)>>)
  {
    function RunOf(c: int): Run
      requires c in marks
    {
      Run(marks[c], c, if c in blobs then blobs[c] else {})
    }

    function Written(c: int): set<(string, Row)> {
      if c in written then written[c] else {}
    }
  }

  predicate Done(w: World, c: int) {
    HasStatus(w.db, c, DONE)
  }

  // ---------------------------------------------------------------- steps

  /** What a status row refers to exists. */
  ghost predicate Registered(tables: seq<Table>, db: Rows, c: int) {
    forall t, network, status :: t in tables && t.name == STATE_TABLE ==> RefersOk(db, t, StateRow(network, c, status))
  }

  /** The head commit is newer than the marks of every run still interrupted. */
  predicate FreshHead(w: World, c: int) {
    forall o :: o in w.marks && o != c ==> COMMIT in w.marks[o] && c > w.marks[o][COMMIT]
  }

  /** A run starts: nothing else runs, and the version is not finished yet. */
  ghost predicate Begins(tables: seq<Table>, network: int, w: World, c: int, w': World) {
    && w.active.None? && c != 0 && !Done(w, c)
    && w'.db == WithStatus(w.db, network, c, PARSING)
    && c in w'.marks && w'.marks == w.marks[c := w'.marks[c]] && MarksOf(tables, w.db, w'.marks[c])
    && w'.blobs == w.blobs - {c}
    && w'.active == Some(c) && w'.written == w.written[c := {}]
  }

  /** Ids are allocated above every id of the table. */
  ghost predicate NewId(db: Rows, t: Table, r: Row) {
    Marked(t) ==> forall s :: s in RowsOf(db, t.name) ==> s.At(IdColumn(t).value) < r.At(IdColumn(t).value)
  }

  /** The run writes a row whose references exist; the rows describing a version name its own commit. */
  ghost predicate Writes(tables: seq<Table>, w: World, t: Table, r: Row, w': World) {
    && w.active.Some? && t in tables && t.name != STATE_TABLE
    && r !in RowsOf(w.db, t.name) && RefersOk(w.db, t, r) && NewId(w.db, t, r)
    && (t.name in VERSION_ROWS ==> r.At(COMMIT_ID) == w.active.value)
    && w'.db == w.db[t.name := RowsOf(w.db, t.name) + {r}]
    && w'.marks == w.marks && w'.blobs == w.blobs && w'.active == w.active
    && w'.written == w.written[w.active.value := w.Written(w.active.value) + {(t.name, r)}]
  }

  /** The run records older blobs, before any row derived from them exists. */
  ghost predicate Records(tables: seq<Table>, w: World, ids: set<int>, w': World) {
    && w.active.Some?
    && (forall t, col, r :: t in tables && BlobDerived(t, col) && r in RowsOf(w.db, t.name) ==> r.At(col) !in ids)
    && w'.db == w.db && w'.marks == w.marks && w'.active == w.active && w'.written == w.written
    && w'.blobs == w.blobs[w.active.value := (if w.active.value in w.blobs then w.blobs[w.active.value] else {}) + ids]
  }

  ghost predicate Finishes(network: int, w: World, w': World) {
    && w.active.Some?
    && w'.db == WithStatus(w.db, network, w.active.value, DONE)
    && w'.marks == w.marks - {w.active.value} && w'.blobs == w.blobs - {w.active.value}
    && w'.active == None && w'.written == w.written
  }

  predicate Crashes(w: World, w': World) {
    w.active.Some? && w' == w.(active := None)
  }

  /** A rollback that passed its guards deletes some rows of its plan, and all of them if it was not cut. */
  ghost predicate RollsBack(tables: seq<Table>, w: World, c: int, plan: seq<Delete>, trace: seq<State>, w': World) {
    && w.active.None? && c in w.marks && !CompletedAfter(w.db, w.marks[c]) && Prechecked(tables, w.marks[c], w.db)
    && GoodPlan(tables, w.RunOf(c), plan) && Trace(plan, trace) && trace[0].db == w.db
    && w'.db == trace[|trace|-1].db
    && w'.active == None && w'.written == w.written
    && (if trace[|trace|-1].step == |plan| then w'.marks == w.marks - {c} && w'.blobs == w.blobs - {c}
        else w'.marks == w.marks && w'.blobs == w.blobs)
  }

  /** A rollback whose marks are stale only forgets them. */
  ghost predicate Discards(w: World, c: int, w': World) {
    w.active.None? && c in w.marks && CompletedAfter(w.db, w.marks[c]) && w' == w.(marks := w.marks - {c}, blobs := w.blobs - {c})
  }

  datatype Event =
    | Begin(network: int, commit: int)
    | Write(table: Table, row: Row)
    | Record(ids: set<int>)
    | Finish(network: int)
    | Crash
    | Rollback(commit: int, plan: seq<Delete>, trace: seq<State>)
    | Discard(commit: int)

  ghost predicate Happens(tables: seq<Table>, w: World, e: Event, w': World) {
    match e
    case Begin(network, c) => Registered(tables, w.db, c) && Begins(tables, network, w, c, w')
    case Write(t, r) => Writes(tables, w, t, r, w')
    case Record(ids) => Records(tables, w, ids, w')
    case Finish(network) => Finishes(network, w, w')
    case Crash => Crashes(w, w')
    case Rollback(c, plan, trace) => RollsBack(tables, w, c, plan, trace, w')
    case Discard(c) => Discards(w, c, w')
  }

  /** One event, with every head commit fresh when its run begins. */
  ghost predicate Step(tables: seq<Table>, w: World, e: Event, w': World) {
    Happens(tables, w, e, w') && (e.Begin? ==> FreshHead(w, e.commit))
  }

  // ---------------------------------------------------------------- the invariant

  /** The status table is a link table, and no row derived from blobs is kept in it. */
  ghost predicate Schema(tables: seq<Table>) {
    && Sound(tables)
    && (exists t :: t in tables && t.name == STATE_TABLE && Cleared(tables, t))
    && (exists t :: t in tables && t.name == COMMIT && Marked(t))
    && (forall t :: t in tables && t.name == STATE_TABLE ==> !Marked(t))
  }

  ghost predicate DbOk(tables: seq<Table>, db: Rows) {
    Intact(tables, db) && UniqueIds(tables, db)
  }

  /** Marks cover exactly the tables with allocated ids, and belong to an unfinished version. */
  ghost predicate MarkOk(tables: seq<Table>, w: World, o: int) {
    o in w.marks ==> MarksFor(tables, w.marks[o]) && !Done(w, o)
  }

  predicate Finished(tables: seq<Table>, w: World, d: int, t: Table, r: Row) {
    Done(w, d) && t in tables && (t.name, r) in w.Written(d)
  }

  /** A row a finished version or the run in progress wrote is there, and describes no other version. */
  predicate RowKept(tables: seq<Table>, w: World, d: int, t: Table, r: Row) {
    (Done(w, d) || w.active == Some(d)) && t in tables && (t.name, r) in w.Written(d) ==>
      r in RowsOf(w.db, t.name) && t.name != STATE_TABLE && (t.name in VERSION_ROWS ==> r.At(COMMIT_ID) == d)
  }

  /** The interrupted run of `o` does not condemn the row when `d` is no newer than its marks. */
  ghost predicate RowSpared(tables: seq<Table>, w: World, o: int, d: int, t: Table, r: Row) {
    o in w.marks && COMMIT in w.marks[o] && d <= w.marks[o][COMMIT] ==> !Condemned(tables, w.RunOf(o), w.db, t, r)
  }

  ghost predicate MarksOk(tables: seq<Table>, w: World) {
    forall o :: o in w.marks ==> MarkOk(tables, w, o)
  }

  ghost predicate AllKept(tables: seq<Table>, w: World) {
    forall d, t, r :: RowKept(tables, w, d, t, r)
  }

  ghost predicate AllSpared(tables: seq<Table>, w: World) {
    forall o, d, t, r :: Finished(tables, w, d, t, r) ==> RowSpared(tables, w, o, d, t, r)
  }

  ghost predicate ActiveOk(tables: seq<Table>, w: World) {
    w.active.Some? ==> w.active.value in w.marks && FreshHead(w, w.active.value) && Registered(tables, w.db, w.active.value)
  }

  ghost predicate WorldInv(tables: seq<Table>, w: World) {
    DbOk(tables, w.db) && MarksOk(tables, w) && AllKept(tables, w) && AllSpared(tables, w) && ActiveOk(tables, w)
  }

  ghost predicate History(tables: seq<Table>, worlds: seq<World>, events: seq<Event>) {
    && |worlds| == |events| + 1
    && forall i :: 0 <= i < |events| ==> Step(tables, worlds[i], events[i], worlds[i + 1])
  }

  // ---------------------------------------------------------------- writing a status

  lemma {:induction false} StatusRows(db: Rows, network: int, c: int, status: int, name: string)
    requires name != STATE_TABLE
    ensures RowsOf(WithStatus(db, network, c, status), name) == RowsOf(db, name)
  {
  }

  lemma {:induction false} StatusOf(db: Rows, network: int, c: int, status: int, d: int, s: int)
    requires d != c
    ensures HasStatus(WithStatus(db, network, c, status), d, s) <==> HasStatus(db, d, s)
  {
    var db' := WithStatus(db, network, c, status);
    assert StateRow(network, c, status).At(COMMIT_ID) == c;
    if HasStatus(db, d, s) {
      var r :| r in RowsOf(db, STATE_TABLE) && r.At(COMMIT_ID) == d && r.At(STATUS) == s;
      assert r in RowsOf(db', STATE_TABLE);
    }
  }

  lemma {:induction false} ParsingIsNotDone(db: Rows, network: int, c: int)
    requires !HasStatus(db, c, DONE)
    ensures !HasStatus(WithStatus(db, network, c, PARSING), c, DONE)
  {
    forall r | r in RowsOf(WithStatus(db, network, c, PARSING), STATE_TABLE) ensures !(r.At(COMMIT_ID) == c && r.At(STATUS) == DONE) {
      assert r == StateRow(network, c, PARSING) || r in RowsOf(db, STATE_TABLE);
    }
  }

  lemma {:induction false} NoneRefersToState(tables: seq<Table>, t: Table, i: nat)
    requires Schema(tables) && t in tables && i < |t.foreign|
    ensures t.foreign[i].parent != STATE_TABLE
  {
    var p :| p in tables && p.name == STATE_TABLE && Cleared(tables, p);
  }

  /** A reference of any table survives a status update: no table refers to the status table. */
  lemma {:induction false} StatusRefersOk(tables: seq<Table>, db: Rows, network: int, c: int, status: int, t: Table, r: Row)
    requires Schema(tables) && t in tables && RefersOk(db, t, r)
    ensures RefersOk(WithStatus(db, network, c, status), t, r)
  {
    forall i | 0 <= i < |t.foreign| ensures RefOk(WithStatus(db, network, c, status), t.foreign[i], r) {
      assert RefOk(db, t.foreign[i], r);
      NoneRefersToState(tables, t, i);
      StatusRows(db, network, c, status, t.foreign[i].parent);
    }
  }

  lemma {:induction false} StatusIntact(tables: seq<Table>, db: Rows, network: int, c: int, status: int)
    requires Schema(tables) && Intact(tables, db) && Registered(tables, db, c)
    ensures Intact(tables, WithStatus(db, network, c, status))
  {
    var db' := WithStatus(db, network, c, status);
    forall t, r | t in tables && r in RowsOf(db', t.name) ensures RefersOk(db', t, r) {
      if t.name == STATE_TABLE && r == StateRow(network, c, status) {
        assert RefersOk(db, t, r);
      } else {
        assert r in RowsOf(db, t.name);
        assert RefersOk(db, t, r);
      }
      StatusRefersOk(tables, db, network, c, status, t, r);
    }
  }

  lemma {:induction false} StatusDbOk(tables: seq<Table>, db: Rows, network: int, c: int, status: int)
    requires Schema(tables) && DbOk(tables, db) && Registered(tables, db, c)
    ensures DbOk(tables, WithStatus(db, network, c, status))
  {
    StatusIntact(tables, db, network, c, status);
    hide Intact, Sound;
    var db' := WithStatus(db, network, c, status);
    forall t, r, s | t in tables && Marked(t) && r in RowsOf(db', t.name) && s in RowsOf(db', t.name)
      ensures r.At(IdColumn(t).value) == s.At(IdColumn(t).value) ==> r == s
    {
      StatusRows(db, network, c, status, t.name);
    }
  }

  lemma {:induction false} StatusRegistered(tables: seq<Table>, db: Rows, network: int, c: int, status: int, d: int)
    requires Schema(tables) && Registered(tables, db, d)
    ensures Registered(tables, WithStatus(db, network, c, status), d)
  {
    forall t, n, s | t in tables && t.name == STATE_TABLE ensures RefersOk(WithStatus(db, network, c, status), t, StateRow(n, d, s)) {
      assert RefersOk(db, t, StateRow(n, d, s));
      StatusRefersOk(tables, db, network, c, status, t, StateRow(n, d, s));
    }
  }

  // ---------------------------------------------------------------- what does not change a verdict

  lemma {:induction false} HangsOffSame(tables: seq<Table>, db: Rows, db': Rows, blobs: set<int>, t: Table, r: Row)
    requires forall p :: p in tables && Marked(p) ==> RowsOf(db', p.name) == RowsOf(db, p.name)
    requires HangsOff(tables, db', blobs, t, r)
    ensures HangsOff(tables, db, blobs, t, r)
  {
    var p, pcol, col, s :| p in tables && Marked(p) && BlobDerived(p, pcol) && References(t, col, p.name)
                           && s in RowsOf(db', p.name) && s.At(pcol) in blobs && s.At(IdColumn(p).value) == r.At(col);
    assert s in RowsOf(db, p.name);
  }

  lemma {:induction false} StatusCondemns(tables: seq<Table>, run: Run, db: Rows, network: int, c: int, status: int, t: Table, r: Row)
    requires Schema(tables) && !Condemned(tables, run, db, t, r)
    ensures !Condemned(tables, run, WithStatus(db, network, c, status), t, r)
  {
    hide Sound, AboveMarks;
    var db' := WithStatus(db, network, c, status);
    forall p | p in tables && Marked(p) ensures RowsOf(db', p.name) == RowsOf(db, p.name) {
      StatusRows(db, network, c, status, p.name);
    }
    if HangsOff(tables, db', run.blobs, t, r) {
      HangsOffSame(tables, db, db', run.blobs, t, r);
    }
  }

  // ---------------------------------------------------------------- beginning

  /** Everything there when a run starts lies outside what that run may later condemn. */
  lemma {:induction false} NewRunSpares(tables: seq<Table>, db: Rows, c: int, marks: map<string, int>, t: Table, r: Row, d: int)
    requires Sound(tables) && Intact(tables, db) && MarksOf(tables, db, marks)
    requires t in tables && r in RowsOf(db, t.name) && d != c && (t.name in VERSION_ROWS ==> r.At(COMMIT_ID) == d)
    ensures !Condemned(tables, Run(marks, c, {}), db, t, r)
  {
    MarksTaken(tables, db, marks);
    OlderIsBelowMarks(tables, marks, db, t, r);
    hide AboveMarks, Sound, Intact, MarksOf;
  }

  lemma {:induction false} BeginSpares(tables: seq<Table>, network: int, w: World, c: int, w': World, o: int, d: int, t: Table, r: Row)
    requires Schema(tables) && DbOk(tables, w.db) && Begins(tables, network, w, c, w')
    requires RowKept(tables, w, d, t, r) && (Finished(tables, w, d, t, r) ==> RowSpared(tables, w, o, d, t, r))
    requires Finished(tables, w', d, t, r)
    ensures RowSpared(tables, w', o, d, t, r)
  {
    hide Sound, Intact, UniqueIds, MarksOf, Condemned, HasStatus, WithStatus;
    ParsingIsNotDone(w.db, network, c);
    assert d != c;
    StatusOf(w.db, network, c, PARSING, d, DONE);
    assert Finished(tables, w, d, t, r);
    if o == c {
      NewRunSpares(tables, w.db, c, w'.marks[c], t, r, d);
      StatusCondemns(tables, w'.RunOf(c), w.db, network, c, PARSING, t, r);
    } else if o in w.marks && COMMIT in w.marks[o] && d <= w.marks[o][COMMIT] {
      StatusCondemns(tables, w.RunOf(o), w.db, network, c, PARSING, t, r);
    }
  }

  lemma {:induction false} BeginMarks(tables: seq<Table>, network: int, w: World, c: int, w': World, o: int)
    requires Schema(tables) && Begins(tables, network, w, c, w') && o in w'.marks && MarkOk(tables, w, o)
    ensures MarkOk(tables, w', o)
  {
    ParsingIsNotDone(w.db, network, c);
    if o == c {
      MarksTaken(tables, w.db, w'.marks[c]);
    } else {
      StatusOf(w.db, network, c, PARSING, o, DONE);
    }
  }

  lemma {:induction false} BeginKept(tables: seq<Table>, network: int, w: World, c: int, w': World, d: int, t: Table, r: Row)
    requires Begins(tables, network, w, c, w') && RowKept(tables, w, d, t, r)
    ensures RowKept(tables, w', d, t, r)
  {
    hide MarksOf, HasStatus;
    if d != c {
      StatusOf(w.db, network, c, PARSING, d, DONE);
    }
  }

  lemma {:induction false} BeginKeeps(tables: seq<Table>, network: int, w: World, c: int, w': World)
    requires Schema(tables) && WorldInv(tables, w)
    requires FreshHead(w, c) && Registered(tables, w.db, c) && Begins(tables, network, w, c, w')
    ensures WorldInv(tables, w')
  {
    hide Schema, DbOk, Finished, MarkOk, RowKept, RowSpared, Registered, MarksOf, WithStatus, HasStatus;
    StatusDbOk(tables, w.db, network, c, PARSING);
    StatusRegistered(tables, w.db, network, c, PARSING, c);
    forall o | o in w'.marks ensures MarkOk(tables, w', o) {
      assert MarkOk(tables, w, o) by { Unmarked(tables, w, o); }
      BeginMarks(tables, network, w, c, w', o);
    }
    forall d, t, r ensures RowKept(tables, w', d, t, r) {
      BeginKept(tables, network, w, c, w', d, t, r);
    }
    forall o, d, t, r | Finished(tables, w', d, t, r) ensures RowSpared(tables, w', o, d, t, r) {
      BeginSpares(tables, network, w, c, w', o, d, t, r);
    }
  }

  lemma {:induction false} Unmarked(tables: seq<Table>, w: World, o: int)
    requires MarksOk(tables, w)
    ensures MarkOk(tables, w, o)
  {
  }

  // ---------------------------------------------------------------- writing

  /** A new row has an id no older row refers to: it brings no older row under a rollback. */
  lemma {:induction false} WriteHangs(tables: seq<Table>, w: World, t: Table, r: Row, w': World, blobs: set<int>, u: Table, x: Row)
    requires Sound(tables) && Intact(tables, w.db) && Writes(tables, w, t, r, w')
    requires u in tables && x in RowsOf(w.db, u.name) && HangsOff(tables, w'.db, blobs, u, x)
    ensures HangsOff(tables, w.db, blobs, u, x)
  {
    var p, pcol, col, s :| p in tables && Marked(p) && BlobDerived(p, pcol) && References(u, col, p.name)
                           && s in RowsOf(w'.db, p.name) && s.At(pcol) in blobs && s.At(IdColumn(p).value) == x.At(col);
    var q := ParentOf(tables, w.db, u, x, p, col);
    NotNew(tables, w, t, r, w', p, q, s);
  }

  /** A row with an id that was taken is not the new one. */
  lemma {:induction false} NotNew(tables: seq<Table>, w: World, t: Table, r: Row, w': World, p: Table, q: Row, s: Row)
    requires Sound(tables) && Writes(tables, w, t, r, w') && p in tables && Marked(p)
    requires q in RowsOf(w.db, p.name) && s in RowsOf(w'.db, p.name) && s.At(IdColumn(p).value) == q.At(IdColumn(p).value)
    ensures s in RowsOf(w.db, p.name)
  {
  }

  lemma {:induction false} WriteIntact(tables: seq<Table>, w: World, t: Table, r: Row, w': World, u: Table, x: Row)
    requires Writes(tables, w, t, r, w') && RefersOk(w.db, u, x)
    ensures RefersOk(w'.db, u, x)
  {
    forall i | 0 <= i < |u.foreign| ensures RefOk(w'.db, u.foreign[i], x) {
      assert RefOk(w.db, u.foreign[i], x);
    }
  }

  lemma {:induction false} WriteDbOk(tables: seq<Table>, w: World, t: Table, r: Row, w': World)
    requires Sound(tables) && DbOk(tables, w.db) && Writes(tables, w, t, r, w')
    ensures DbOk(tables, w'.db)
  {
    assert Intact(tables, w'.db) by {
      hide Sound;
      forall u, x | u in tables && x in RowsOf(w'.db, u.name) ensures RefersOk(w'.db, u, x) {
        if x in RowsOf(w.db, u.name) {
          assert RefersOk(w.db, u, x);
        } else {
          NewRow(tables, w, t, r, w', u, x);
        }
        WriteIntact(tables, w, t, r, w', u, x);
      }
    }
    hide Intact, RefersOk;
    forall u, x, y | u in tables && Marked(u) && x in RowsOf(w'.db, u.name) && y in RowsOf(w'.db, u.name)
      ensures x.At(IdColumn(u).value) == y.At(IdColumn(u).value) ==> x == y
    {
    }
  }

  lemma {:induction false} NewRow(tables: seq<Table>, w: World, t: Table, r: Row, w': World, u: Table, x: Row)
    requires Sound(tables) && Writes(tables, w, t, r, w') && u in tables && x in RowsOf(w'.db, u.name) && x !in RowsOf(w.db, u.name)
    ensures u == t && x == r
  {
  }

  lemma {:induction false} WriteStatus(tables: seq<Table>, w: World, t: Table, r: Row, w': World, d: int)
    requires Writes(tables, w, t, r, w')
    ensures Done(w', d) <==> Done(w, d)
  {
    assert RowsOf(w'.db, STATE_TABLE) == RowsOf(w.db, STATE_TABLE);
  }

  lemma {:induction false} WriteKept(tables: seq<Table>, w: World, t: Table, r: Row, w': World, d: int, u: Table, x: Row)
    requires Sound(tables) && Writes(tables, w, t, r, w') && RowKept(tables, w, d, u, x)
    ensures RowKept(tables, w', d, u, x)
  {
    hide RefersOk, NewId;
    WriteStatus(tables, w, t, r, w', d);
    hide HasStatus;
  }

  lemma {:induction false} WriteSpares(tables: seq<Table>, w: World, t: Table, r: Row, w': World, o: int, d: int, u: Table, x: Row)
    requires Sound(tables) && Intact(tables, w.db) && Writes(tables, w, t, r, w')
    requires w.active.value in w.marks && MarkOk(tables, w, w.active.value)
    requires RowKept(tables, w, d, u, x) && (Finished(tables, w, d, u, x) ==> RowSpared(tables, w, o, d, u, x))
    requires Finished(tables, w', d, u, x)
    ensures RowSpared(tables, w', o, d, u, x)
  {
    WriteStatus(tables, w, t, r, w', d);
    hide HasStatus, RefersOk, NewId, Intact, Sound, MarksFor, HangsOff, AboveMarks;
    assert d != w.active.value;
    assert Finished(tables, w, d, u, x);
    if o in w.marks {
      assert w'.RunOf(o) == w.RunOf(o);
      if HangsOff(tables, w'.db, w.RunOf(o).blobs, u, x) {
        WriteHangs(tables, w, t, r, w', w.RunOf(o).blobs, u, x);
      }
    }
  }

  lemma {:induction false} WriteRegistered(tables: seq<Table>, w: World, t: Table, r: Row, w': World, c: int)
    requires Writes(tables, w, t, r, w') && Registered(tables, w.db, c)
    ensures Registered(tables, w'.db, c)
  {
    forall u, n, s | u in tables && u.name == STATE_TABLE ensures RefersOk(w'.db, u, StateRow(n, c, s)) {
      assert RefersOk(w.db, u, StateRow(n, c, s));
      WriteIntact(tables, w, t, r, w', u, StateRow(n, c, s));
    }
  }

  lemma {:induction false} WriteKeeps(tables: seq<Table>, w: World, t: Table, r: Row, w': World)
    requires Schema(tables) && WorldInv(tables, w) && Writes(tables, w, t, r, w')
    ensures WorldInv(tables, w')
  {
    hide Sound, Intact, UniqueIds, Finished, RowKept, RowSpared, Registered, RefersOk, HasStatus, NewId;
    WriteDbOk(tables, w, t, r, w');
    WriteRegistered(tables, w, t, r, w', w.active.value);
    forall o | o in w'.marks ensures MarkOk(tables, w', o) {
      assert MarkOk(tables, w, o);
      WriteStatus(tables, w, t, r, w', o);
    }
    forall d, u, x ensures RowKept(tables, w', d, u, x) {
      WriteKept(tables, w, t, r, w', d, u, x);
    }
    forall o, d, u, x | Finished(tables, w', d, u, x) ensures RowSpared(tables, w', o, d, u, x) {
      WriteSpares(tables, w, t, r, w', o, d, u, x);
    }
  }

  // ---------------------------------------------------------------- recording blobs

  /** No row derived from the recorded blobs exists yet, so none of the older rows hangs off them. */
  lemma {:induction false} RecordHangs(tables: seq<Table>, w: World, ids: set<int>, w': World, blobs: set<int>, t: Table, r: Row)
    requires Records(tables, w, ids, w') && HangsOff(tables, w'.db, blobs + ids, t, r)
    ensures HangsOff(tables, w.db, blobs, t, r)
  {
    var p, pcol, col, s :| p in tables && Marked(p) && BlobDerived(p, pcol) && References(t, col, p.name)
                           && s in RowsOf(w'.db, p.name) && s.At(pcol) in blobs + ids && s.At(IdColumn(p).value) == r.At(col);
    assert s.At(pcol) in blobs;
  }

  lemma {:induction false} RecordCondemns(tables: seq<Table>, w: World, ids: set<int>, w': World, o: int, t: Table, r: Row)
    requires Records(tables, w, ids, w') && o in w.marks && t in tables && r in RowsOf(w.db, t.name)
    requires !Condemned(tables, w.RunOf(o), w.db, t, r)
    ensures !Condemned(tables, w'.RunOf(o), w'.db, t, r)
  {
    hide AboveMarks, HangsOff;
    var blobs, blobs' := w.RunOf(o).blobs, w'.RunOf(o).blobs;
    assert blobs' == blobs || blobs' == blobs + ids;
    if HangsOff(tables, w'.db, blobs + ids, t, r) {
      RecordHangs(tables, w, ids, w', blobs, t, r);
    }
  }

  lemma {:induction false} RecordSpares(tables: seq<Table>, w: World, ids: set<int>, w': World, o: int, d: int, t: Table, r: Row)
    requires Records(tables, w, ids, w') && RowKept(tables, w, d, t, r) && Finished(tables, w', d, t, r)
    requires RowSpared(tables, w, o, d, t, r)
    ensures RowSpared(tables, w', o, d, t, r)
  {
    hide HasStatus, Condemned;
    if o in w.marks && COMMIT in w.marks[o] && d <= w.marks[o][COMMIT] {
      RecordCondemns(tables, w, ids, w', o, t, r);
    }
  }

  lemma {:induction false} RecordKeeps(tables: seq<Table>, w: World, ids: set<int>, w': World)
    requires WorldInv(tables, w) && Records(tables, w, ids, w')
    ensures WorldInv(tables, w')
  {
    hide DbOk, RowSpared, Registered, HasStatus, MarksFor;
    forall o | o in w'.marks ensures MarkOk(tables, w', o) {
      assert MarkOk(tables, w, o);
    }
    forall d, t, r ensures RowKept(tables, w', d, t, r) {
      assert RowKept(tables, w, d, t, r);
    }
    forall o, d, t, r | Finished(tables, w', d, t, r) ensures RowSpared(tables, w', o, d, t, r) {
      assert Finished(tables, w, d, t, r);
      RecordSpares(tables, w, ids, w', o, d, t, r);
    }
  }

  // ---------------------------------------------------------------- finishing

  lemma {:induction false} FinishSpares(tables: seq<Table>, network: int, w: World, w': World, o: int, d: int, t: Table, r: Row)
    requires Schema(tables) && Finishes(network, w, w') && FreshHead(w, w.active.value)
    requires Finished(tables, w', d, t, r) && (Finished(tables, w, d, t, r) ==> RowSpared(tables, w, o, d, t, r))
    ensures RowSpared(tables, w', o, d, t, r)
  {
    hide Schema, Condemned, HasStatus, WithStatus;
    var c := w.active.value;
    if o in w'.marks && COMMIT in w'.marks[o] && d <= w'.marks[o][COMMIT] {
      assert o in w.marks && o != c && d != c;
      StatusOf(w.db, network, c, DONE, d, DONE);
      assert w'.RunOf(o) == w.RunOf(o);
      StatusCondemns(tables, w.RunOf(o), w.db, network, c, DONE, t, r);
    }
  }

  lemma {:induction false} FinishKept(tables: seq<Table>, network: int, w: World, w': World, d: int, t: Table, r: Row)
    requires Finishes(network, w, w') && RowKept(tables, w, d, t, r)
    ensures RowKept(tables, w', d, t, r)
  {
    hide HasStatus;
    if d != w.active.value {
      StatusOf(w.db, network, w.active.value, DONE, d, DONE);
    }
  }

  lemma {:induction false} FinishKeeps(tables: seq<Table>, network: int, w: World, w': World)
    requires Schema(tables) && WorldInv(tables, w) && Finishes(network, w, w')
    ensures WorldInv(tables, w')
  {
    hide Schema, DbOk, RowKept, RowSpared, Finished, Registered, HasStatus, WithStatus, MarksFor;
    var c := w.active.value;
    StatusDbOk(tables, w.db, network, c, DONE);
    forall o | o in w'.marks ensures MarkOk(tables, w', o) {
      assert MarkOk(tables, w, o);
      StatusOf(w.db, network, c, DONE, o, DONE);
    }
    forall d, t, r ensures RowKept(tables, w', d, t, r) {
      FinishKept(tables, network, w, w', d, t, r);
    }
    forall o, d, t, r | Finished(tables, w', d, t, r) ensures RowSpared(tables, w', o, d, t, r) {
      FinishSpares(tables, network, w, w', o, d, t, r);
    }
  }

  // ---------------------------------------------------------------- rolling back

  /** A finished version is not newer than the marks of a rollback that passed its guard. */
  lemma {:induction false} OlderHead(tables: seq<Table>, w: World, c: int, d: int)
    requires Schema(tables) && c in w.marks && MarksFor(tables, w.marks[c]) && !CompletedAfter(w.db, w.marks[c]) && Done(w, d)
    ensures COMMIT in w.marks[c] && d <= w.marks[c][COMMIT]
  {
    var t :| t in tables && t.name == COMMIT && Marked(t);
    var r :| r in RowsOf(w.db, STATE_TABLE) && r.At(COMMIT_ID) == d && r.At(STATUS) == DONE;
  }

  lemma {:induction false} TraceOf(tables: seq<Table>, w: World, c: int, plan: seq<Delete>, trace: seq<State>, w': World)
    requires Sound(tables) && DbOk(tables, w.db) && RollsBack(tables, w, c, plan, trace, w') && MarkOk(tables, w, c)
    ensures Inv(tables, w.RunOf(c), plan, w.db, trace[|trace|-1]) && DbOk(tables, w'.db)
  {
    assert trace != [];
    hide GoodPlan, Trace, Prechecked, CompletedAfter, HasStatus, Sound, Intact, UniqueIds, MarksFor;
    TraceKeeps(tables, w.RunOf(c), plan, trace);
    CutStartable(tables, w.RunOf(c), plan, w.db, trace[|trace|-1]);
  }

  /** Whatever a rollback has removed so far, no row of a finished version is among it. */
  lemma {:induction false} RollbackSpares(tables: seq<Table>, w: World, c: int, plan: seq<Delete>, trace: seq<State>, w': World, d: int, t: Table, r: Row)
    requires Schema(tables) && WorldInv(tables, w) && RollsBack(tables, w, c, plan, trace, w') && Finished(tables, w, d, t, r)
    ensures r in RowsOf(w'.db, t.name)
  {
    hide Sound, Intact, UniqueIds, MarksFor, GoodPlan, Trace, Prechecked, HasStatus, Condemned, ActiveOk, CompletedAfter;
    assert MarkOk(tables, w, c) && RowKept(tables, w, d, t, r);
    TraceOf(tables, w, c, plan, trace, w');
    OlderHead(tables, w, c, d);
    assert RowSpared(tables, w, c, d, t, r);
  }

  lemma {:induction false} DoneShrinks(db: Rows, db': Rows, d: int)
    requires Below(db', db) && HasStatus(db', d, DONE)
    ensures HasStatus(db, d, DONE)
  {
    var r :| r in RowsOf(db', STATE_TABLE) && r.At(COMMIT_ID) == d && r.At(STATUS) == DONE;
    assert r in RowsOf(db, STATE_TABLE);
  }

  /** Fewer rows and the same marks, or fewer, spare what was spared. */
  lemma {:induction false} ShrinkSpares(tables: seq<Table>, w: World, w': World, o: int, d: int, t: Table, r: Row)
    requires Below(w'.db, w.db) && (o in w'.marks ==> o in w.marks && w'.RunOf(o) == w.RunOf(o))
    requires RowSpared(tables, w, o, d, t, r)
    ensures RowSpared(tables, w', o, d, t, r)
  {
    hide Condemned, Below;
    if o in w'.marks && COMMIT in w'.marks[o] && d <= w'.marks[o][COMMIT] && Condemned(tables, w'.RunOf(o), w'.db, t, r) {
      CondemnedShrinks(tables, w.RunOf(o), w.db, w'.db, t, r);
    }
  }

  /** An event without a run in progress afterwards that only removes rows, marks or recorded blobs, and no finished row. */
  lemma {:induction false} ShrinkKeeps(tables: seq<Table>, w: World, w': World)
    requires WorldInv(tables, w) && DbOk(tables, w'.db) && Below(w'.db, w.db) && w'.written == w.written && w'.active.None?
    requires forall o :: o in w'.marks ==> o in w.marks && w'.RunOf(o) == w.RunOf(o)
    requires forall d, t, r :: Finished(tables, w, d, t, r) ==> r in RowsOf(w'.db, t.name)
    ensures WorldInv(tables, w')
  {
    hide DbOk, Below, HasStatus, RowSpared, Registered, MarksFor;
    forall o | o in w'.marks ensures MarkOk(tables, w', o) {
      assert MarkOk(tables, w, o);
      assert w'.RunOf(o).marks == w.RunOf(o).marks;
      if Done(w', o) {
        DoneShrinks(w.db, w'.db, o);
      }
    }
    forall d, t, r ensures RowKept(tables, w', d, t, r) {
      assert RowKept(tables, w, d, t, r);
      if Done(w', d) {
        DoneShrinks(w.db, w'.db, d);
        assert (t in tables && (t.name, r) in w.Written(d)) ==> Finished(tables, w, d, t, r);
      }
    }
    forall o, d, t, r | Finished(tables, w', d, t, r) ensures RowSpared(tables, w', o, d, t, r) {
      DoneShrinks(w.db, w'.db, d);
      assert Finished(tables, w, d, t, r);
      ShrinkSpares(tables, w, w', o, d, t, r);
    }
  }

  lemma {:induction false} RollbackKeeps(tables: seq<Table>, w: World, c: int, plan: seq<Delete>, trace: seq<State>, w': World)
    requires Schema(tables) && WorldInv(tables, w) && RollsBack(tables, w, c, plan, trace, w')
    ensures WorldInv(tables, w')
  {
    assert MarkOk(tables, w, c);
    TraceOf(tables, w, c, plan, trace, w');
    forall d, t, r | Finished(tables, w, d, t, r) ensures r in RowsOf(w'.db, t.name) {
      RollbackSpares(tables, w, c, plan, trace, w', d, t, r);
    }
    hide Sound, Intact, UniqueIds, MarksFor, GoodPlan, Trace, Prechecked, HasStatus, Finished, CompletedAfter, WorldInv, DbOk;
    ShrinkKeeps(tables, w, w');
  }

  lemma {:induction false} DropKeeps(tables: seq<Table>, w: World, w': World)
    requires WorldInv(tables, w) && w'.active.None? && (Crashes(w, w') || exists c :: Discards(w, c, w'))
    ensures WorldInv(tables, w')
  {
    hide DbOk, HasStatus, RowSpared, Registered, MarksFor, CompletedAfter;
    assert Below(w'.db, w.db);
    forall d, t, r | Finished(tables, w, d, t, r) ensures r in RowsOf(w'.db, t.name) {
      assert RowKept(tables, w, d, t, r);
    }
    ShrinkKeeps(tables, w, w');
  }

  // ---------------------------------------------------------------- whole histories

  lemma {:induction false} StepKeepsWorld(tables: seq<Table>, w: World, e: Event, w': World)
    requires Schema(tables) && WorldInv(tables, w) && Step(tables, w, e, w')
    ensures WorldInv(tables, w')
  {
    hide WorldInv, Begins, Writes, Records, Finishes, RollsBack, Schema, FreshHead, Registered, CompletedAfter;
    match e
    case Begin(network, c) => BeginKeeps(tables, network, w, c, w');
    case Write(t, r) => WriteKeeps(tables, w, t, r, w');
    case Record(ids) => RecordKeeps(tables, w, ids, w');
    case Finish(network) => FinishKeeps(tables, network, w, w');
    case Crash => DropKeeps(tables, w, w');
    case Rollback(c, plan, trace) => RollbackKeeps(tables, w, c, plan, trace, w');
    case Discard(c) => DropKeeps(tables, w, w');
  }

  lemma {:induction false} HistoryKeeps(tables: seq<Table>, worlds: seq<World>, events: seq<Event>, n: nat)
    requires Schema(tables) && History(tables, worlds, events) && WorldInv(tables, worlds[0]) && n < |worlds|
    ensures WorldInv(tables, worlds[n])
    decreases n
  {
    hide WorldInv, Schema, Step;
    if n > 0 {
      HistoryKeeps(tables, worlds, events, n - 1);
      StepKeepsWorld(tables, worlds[n - 1], events[n - 1], worlds[n]);
    }
  }

  /** In every history, no rollback of any run, cut or complete, removes a row a finished version wrote. */
  lemma {:induction false} FinishedVersionsKeepTheirRows(tables: seq<Table>, worlds: seq<World>, events: seq<Event>, i: nat, d: int, t: Table, r: Row)
    requires Schema(tables) && History(tables, worlds, events) && WorldInv(tables, worlds[0]) && i < |events|
    requires Finished(tables, worlds[i], d, t, r) && events[i].Rollback?
    ensures r in RowsOf(worlds[i].db, t.name) && r in RowsOf(worlds[i + 1].db, t.name)
  {
    HistoryKeeps(tables, worlds, events, i);
    var e := events[i];
    assert Step(tables, worlds[i], e, worlds[i + 1]);
    assert RowKept(tables, worlds[i], d, t, r);
    hide WorldInv, Schema, RollsBack, Finished, RowKept, History;
    RollbackSpares(tables, worlds[i], e.commit, e.plan, e.trace, worlds[i + 1], d, t, r);
  }

  /** An empty database with nothing interrupted starts a history. */
  lemma {:induction false} EmptyWorld(tables: seq<Table>)
    ensures WorldInv(tables, World(map[], map[], map[], None, map[]))
  {
    var w := World(map[], map[], map[], None, map[]);
    assert forall d, t, r :: RowKept(tables, w, d, t, r);
  }

  // ---------------------------------------------------------------- what a recovery removes

  predicate Completes(plan: seq<Delete>, trace: seq<State>) {
    trace != [] && trace[|trace|-1].step == |plan|
  }

  /** What `rollback_version` does if nothing cuts it: forget stale marks, refuse, or undo the run. */
  ghost predicate Recovers(tables: seq<Table>, w: World, o: int, w': World) {
    && w.active.None? && o in w.marks
    && if CompletedAfter(w.db, w.marks[o]) then Discards(w, o, w')
       else if !Prechecked(tables, w.marks[o], w.db) then w' == w
       else exists plan: seq<Delete>, trace: seq<State> :: RollsBack(tables, w, o, plan, trace, w') && Completes(plan, trace)
  }

  /** Some version whose head commit lies above the mark has finished. */
  ghost predicate NewerFinished(w: World, marks: map<string, int>) {
    COMMIT in marks && exists d :: Done(w, d) && d > marks[COMMIT]
  }

  lemma {:induction false} CompletedIs(w: World, marks: map<string, int>)
    ensures CompletedAfter(w.db, marks) <==> NewerFinished(w, marks)
  {
    if CompletedAfter(w.db, marks) {
      var r :| r in RowsOf(w.db, STATE_TABLE) && r.At(STATUS) == DONE && r.At(COMMIT_ID) > marks[COMMIT];
      assert Done(w, r.At(COMMIT_ID));
    }
  }

  /** A row above the marks of an interrupted run, whoever wrote it, is removed by the run's recovery exactly when no version
      whose head commit lies above the mark has finished and the precheck passes. */
  lemma {:induction false} RemovedIff(tables: seq<Table>, w: World, o: int, w': World, t: Table, r: Row)
    requires Schema(tables) && DbOk(tables, w.db) && Recovers(tables, w, o, w') && MarkOk(tables, w, o)
    requires t in tables && r in RowsOf(w.db, t.name) && AboveMarks(tables, w.marks[o], t, r)
    ensures r !in RowsOf(w'.db, t.name) <==>
            Prechecked(tables, w.marks[o], w.db) && !NewerFinished(w, w.marks[o])
  {
    CompletedIs(w, w.marks[o]);
    hide Schema, DbOk, CompletedAfter, NewerFinished, HasStatus, Prechecked, AboveMarks, MarkOk, RollsBack;
    if !CompletedAfter(w.db, w.marks[o]) && Prechecked(tables, w.marks[o], w.db) {
      var plan: seq<Delete>, trace: seq<State> :| RollsBack(tables, w, o, plan, trace, w') && Completes(plan, trace);
      UndoneRemoves(tables, w, o, plan, trace, w', t, r);
    } else {
      assert w'.db == w.db;
    }
  }

  lemma {:induction false} UndoneRemoves(tables: seq<Table>, w: World, o: int, plan: seq<Delete>, trace: seq<State>, w': World, t: Table, r: Row)
    requires Schema(tables) && DbOk(tables, w.db) && RollsBack(tables, w, o, plan, trace, w') && Completes(plan, trace) && MarkOk(tables, w, o)
    requires t in tables && r in RowsOf(w.db, t.name) && AboveMarks(tables, w.marks[o], t, r)
    ensures r !in RowsOf(w'.db, t.name)
  {
    TraceOf(tables, w, o, plan, trace, w');
    hide Sound, Intact, UniqueIds, MarksFor, GoodPlan, Trace, Prechecked, HasStatus, AboveMarks, CompletedAfter, Inv;
    CompleteIsRolledBack(tables, w.RunOf(o), plan, w.db, trace[|trace|-1]);
  }

  // ---------------------------------------------------------------- one run from begin to finish

  /** A run of `c` from its beginning to its end, whatever it writes and records; its head need not be fresh. */
  ghost predicate WholeRun(tables: seq<Table>, c: int, worlds: seq<World>, events: seq<Event>) {
    && |worlds| == |events| + 1 && |events| >= 2
    && events[0].Begin? && events[0].commit == c && events[|events|-1].Finish?
    && (forall i :: 0 < i < |events| - 1 ==> events[i].Write? || events[i].Record?)
    && forall i :: 0 <= i < |events| ==> Happens(tables, worlds[i], events[i], worlds[i + 1])
  }

  lemma {:induction false} EventAt(tables: seq<Table>, c: int, worlds: seq<World>, events: seq<Event>, i: nat)
    requires WholeRun(tables, c, worlds, events) && i < |events|
    ensures |worlds| == |events| + 1 && |events| >= 2 && Happens(tables, worlds[i], events[i], worlds[i + 1])
    ensures if i == 0 then events[i].Begin? && events[i].commit == c
            else if i == |events| - 1 then events[i].Finish? else events[i].Write? || events[i].Record?
  {
    hide Happens;
  }

  /** What a run in progress leaves as it was when it began in `w`. */
  ghost predicate Running(tables: seq<Table>, w: World, c: int, w': World) {
    && w'.active == Some(c) && DbOk(tables, w'.db) && Registered(tables, w'.db, c)
    && (forall o :: o in w.marks && o != c ==> o in w'.marks && w'.marks[o] == w.marks[o])
    && forall d :: Done(w', d) <==> Done(w, d)
  }

  lemma {:induction false} BeginRuns(tables: seq<Table>, network: int, w: World, c: int, w': World)
    requires Schema(tables) && DbOk(tables, w.db) && Registered(tables, w.db, c) && Begins(tables, network, w, c, w')
    ensures Running(tables, w, c, w')
  {
    hide Schema, DbOk, Registered, MarksOf, WithStatus, HasStatus;
    StatusDbOk(tables, w.db, network, c, PARSING);
    StatusRegistered(tables, w.db, network, c, PARSING, c);
    ParsingIsNotDone(w.db, network, c);
    forall d ensures Done(w', d) <==> Done(w, d) {
      if d != c {
        StatusOf(w.db, network, c, PARSING, d, DONE);
      }
    }
  }

  lemma {:induction false} WriteRuns(tables: seq<Table>, w: World, c: int, w1: World, t: Table, r: Row, w2: World)
    requires Sound(tables) && Running(tables, w, c, w1) && Writes(tables, w1, t, r, w2)
    ensures Running(tables, w, c, w2)
  {
    WriteDbOk(tables, w1, t, r, w2);
    WriteRegistered(tables, w1, t, r, w2, c);
    hide Sound, DbOk, Registered, NewId, RefersOk, HasStatus;
    forall d ensures Done(w2, d) <==> Done(w, d) {
      assert Done(w1, d) <==> Done(w, d);
      WriteStatus(tables, w1, t, r, w2, d);
    }
  }

  lemma {:induction false} WorkRuns(tables: seq<Table>, w: World, c: int, w1: World, e: Event, w2: World)
    requires Sound(tables) && Running(tables, w, c, w1) && (e.Write? || e.Record?) && Happens(tables, w1, e, w2)
    ensures Running(tables, w, c, w2)
  {
    if e.Write? {
      WriteRuns(tables, w, c, w1, e.table, e.row, w2);
    } else {
      hide Sound, DbOk, Registered, HasStatus;
      assert forall d :: Done(w2, d) <==> Done(w1, d);
    }
  }

  lemma {:induction false} BeginIs(tables: seq<Table>, w: World, e: Event, w': World)
    requires e.Begin? && Happens(tables, w, e, w')
    ensures Begins(tables, e.network, w, e.commit, w') && Registered(tables, w.db, e.commit)
  {
  }

  lemma {:induction false} FinishIs(tables: seq<Table>, w: World, e: Event, w': World)
    requires e.Finish? && Happens(tables, w, e, w')
    ensures Finishes(e.network, w, w')
  {
  }

  lemma {:induction false} WriteIs(tables: seq<Table>, w: World, e: Event, w': World)
    requires e.Write? && Happens(tables, w, e, w')
    ensures Writes(tables, w, e.table, e.row, w')
  {
  }

  lemma {:induction false} StillRunning(tables: seq<Table>, c: int, worlds: seq<World>, events: seq<Event>, i: nat)
    requires Schema(tables) && WholeRun(tables, c, worlds, events) && DbOk(tables, worlds[0].db) && 0 < i < |events|
    ensures Running(tables, worlds[0], c, worlds[i])
    decreases i
  {
    EventAt(tables, c, worlds, events, i - 1);
    hide Sound, DbOk, Registered, Running, Begins, Writes, Records, WholeRun, Happens;
    if i == 1 {
      assert Begins(tables, events[0].network, worlds[0], c, worlds[1]) && Registered(tables, worlds[0].db, c) by {
        BeginIs(tables, worlds[0], events[0], worlds[1]);
      }
      BeginRuns(tables, events[0].network, worlds[0], c, worlds[1]);
    } else {
      StillRunning(tables, c, worlds, events, i - 1);
      WorkRuns(tables, worlds[0], c, worlds[i - 1], events[i - 1], worlds[i]);
    }
  }

  /** The run in progress wrote the row, and it is there. */
  predicate WroteRow(w: World, c: int, name: string, r: Row) {
    (name, r) in w.Written(c) && r in RowsOf(w.db, name)
  }

  lemma {:induction false} WorkKeepsRow(tables: seq<Table>, w: World, e: Event, w': World, c: int, name: string, r: Row)
    requires (e.Write? || e.Record?) && Happens(tables, w, e, w') && w.active == Some(c) && WroteRow(w, c, name, r)
    ensures WroteRow(w', c, name, r)
  {
    hide NewId, RefersOk;
  }

  lemma {:induction false} WritesRow(tables: seq<Table>, w: World, t: Table, r: Row, w': World, c: int)
    requires Writes(tables, w, t, r, w') && w.active == Some(c)
    ensures WroteRow(w', c, t.name, r) && t.name != STATE_TABLE && t in tables
  {
    hide NewId, RefersOk;
  }

  /** What the run wrote is there until it finishes, and counted as its own. */
  lemma {:induction false} WrittenSoFar(tables: seq<Table>, c: int, worlds: seq<World>, events: seq<Event>, j: nat, i: nat)
    requires Schema(tables) && WholeRun(tables, c, worlds, events) && DbOk(tables, worlds[0].db)
    requires 0 < j < i < |events| && events[j].Write?
    ensures WroteRow(worlds[i], c, events[j].table.name, events[j].row)
    ensures events[j].table.name != STATE_TABLE && events[j].table in tables
    decreases i
  {
    StillRunning(tables, c, worlds, events, i - 1);
    EventAt(tables, c, worlds, events, i - 1);
    assert worlds[i - 1].active == Some(c);
    hide Schema, DbOk, Running, Writes, WroteRow, WholeRun, Happens;
    if i > j + 1 {
      WrittenSoFar(tables, c, worlds, events, j, i - 1);
      WorkKeepsRow(tables, worlds[i - 1], events[i - 1], worlds[i], c, events[j].table.name, events[j].row);
    } else {
      WriteIs(tables, worlds[j], events[j], worlds[i]);
      WritesRow(tables, worlds[j], events[j].table, events[j].row, worlds[i], c);
    }
  }

  lemma {:induction false} FinishDone(db: Rows, network: int, c: int, d: int)
    ensures HasStatus(WithStatus(db, network, c, DONE), d, DONE) <==> d == c || HasStatus(db, d, DONE)
  {
    if d == c {
      FinishedIsDone(db, network, c);
    } else {
      StatusOf(db, network, c, DONE, d, DONE);
    }
  }

  /** When the run has finished, only its own version has finished besides; other runs keep their marks. */
  lemma {:induction false} FinishedRun(tables: seq<Table>, c: int, worlds: seq<World>, events: seq<Event>)
    requires Schema(tables) && WholeRun(tables, c, worlds, events) && DbOk(tables, worlds[0].db)
    ensures var w, w' := worlds[0], worlds[|events|];
            && w'.active.None? && DbOk(tables, w'.db) && (forall d :: Done(w', d) <==> d == c || Done(w, d))
            && forall o :: o in w.marks && o != c ==> o in w'.marks && w'.marks[o] == w.marks[o]
  {
    var n := |events| - 1;
    var w, w' := worlds[n], worlds[n + 1];
    StillRunning(tables, c, worlds, events, n);
    EventAt(tables, c, worlds, events, n);
    var network := events[n].network;
    FinishIs(tables, w, events[n], w');
    hide WholeRun, Happens;
    StatusDbOk(tables, w.db, network, c, DONE);
    hide Schema, DbOk, Registered, HasStatus, WithStatus;
    forall d ensures Done(w', d) <==> d == c || Done(worlds[0], d) {
      assert Done(w, d) <==> Done(worlds[0], d);
      FinishDone(w.db, network, c, d);
    }
  }

  /** The rows the run wrote are a finished version's rows. */
  lemma {:induction false} FinishedRows(tables: seq<Table>, c: int, worlds: seq<World>, events: seq<Event>, j: nat)
    requires Schema(tables) && WholeRun(tables, c, worlds, events) && DbOk(tables, worlds[0].db)
    requires 0 < j < |events| - 1 && events[j].Write?
    ensures Finished(tables, worlds[|events|], c, events[j].table, events[j].row)
    ensures events[j].row in RowsOf(worlds[|events|].db, events[j].table.name)
  {
    var n := |events| - 1;
    WrittenSoFar(tables, c, worlds, events, j, n);
    StillRunning(tables, c, worlds, events, n);
    FinishedRun(tables, c, worlds, events);
    EventAt(tables, c, worlds, events, n);
    hide Schema, DbOk, Happens, HasStatus, WithStatus, WholeRun, Registered;
    var network, w, w', t, r := events[n].network, worlds[n], worlds[n + 1], events[j].table, events[j].row;
    FinishIs(tables, w, events[n], w');
    assert Done(w', c);
    StatusRows(w.db, network, c, DONE, t.name);
  }

  /** Once a run has finished, with a fresh head or not, the recovery of an interrupted run removes a row it wrote above that
      run's marks exactly when neither its own head nor any finished before lies above the commit mark and the precheck
      passes. */
  lemma {:induction false} FinishedRowRemovedIff(tables: seq<Table>, c: int, worlds: seq<World>, events: seq<Event>, o: int, j: nat, after: World)
    requires Schema(tables) && WholeRun(tables, c, worlds, events) && DbOk(tables, worlds[0].db)
    requires o != c && o in worlds[0].marks && MarkOk(tables, worlds[0], o) && COMMIT in worlds[0].marks[o]
    requires 0 < j < |events| - 1 && events[j].Write? && AboveMarks(tables, worlds[0].marks[o], events[j].table, events[j].row)
    requires Recovers(tables, worlds[|events|], o, after)
    ensures Finished(tables, worlds[|events|], c, events[j].table, events[j].row)
    ensures events[j].row !in RowsOf(after.db, events[j].table.name) <==>
            && c <= worlds[0].marks[o][COMMIT] && !NewerFinished(worlds[0], worlds[0].marks[o])
            && Prechecked(tables, worlds[0].marks[o], worlds[|events|].db)
  {
    var w := worlds[|events|];
    FinishedRun(tables, c, worlds, events);
    FinishedRows(tables, c, worlds, events, j);
    hide Schema, DbOk, HasStatus, WholeRun, AboveMarks, Recovers, MarksFor, Prechecked;
    assert MarkOk(tables, w, o);
    RemovedIff(tables, w, o, after, events[j].table, events[j].row);
    assert Done(w, c);
  }

  /** A run that writes to tables with marks only above them passes another run's precheck if that passed before. */
  lemma {:induction false} StillPrechecked(tables: seq<Table>, c: int, worlds: seq<World>, events: seq<Event>, marks: map<string, int>, i: nat)
    requires Schema(tables) && WholeRun(tables, c, worlds, events) && Prechecked(tables, marks, worlds[0].db) && i <= |events|
    requires forall j :: 0 <= j < |events| && events[j].Write? ==> AboveOwnMark(marks, events[j].table, events[j].row)
    ensures Prechecked(tables, marks, worlds[i].db)
    decreases i
  {
    if i > 0 {
      StillPrechecked(tables, c, worlds, events, marks, i - 1);
      EventAt(tables, c, worlds, events, i - 1);
      hide Schema, WholeRun, Happens, TablePrechecked, AboveOwnMark;
      forall t | t in tables ensures TablePrechecked(t, marks, worlds[i].db) {
        assert TablePrechecked(t, marks, worlds[i - 1].db);
        PrecheckedStep(tables, worlds[i - 1], events[i - 1], worlds[i], marks, t);
      }
    }
  }

  predicate AboveOwnMark(marks: map<string, int>, t: Table, r: Row) {
    Marked(t) && t.name in marks ==> r.At(IdColumn(t).value) > marks[t.name]
  }

  lemma {:induction false} PrecheckedStep(tables: seq<Table>, w: World, e: Event, w': World, marks: map<string, int>, t: Table)
    requires Schema(tables) && (e.Begin? || e.Finish? || e.Write? || e.Record?) && Happens(tables, w, e, w') && t in tables
    requires TablePrechecked(t, marks, w.db) && (e.Write? ==> AboveOwnMark(marks, e.table, e.row))
    ensures TablePrechecked(t, marks, w'.db)
  {
    if Marked(t) && t.name in marks {
      assert t.name != STATE_TABLE;
      hide Sound, Registered, NewId, RefersOk, MarksOf, Records, OlderRefersOlder;
      forall r, k | r in RowsOf(w'.db, t.name) && 0 <= k < |t.foreign| ensures OlderRefersOlder(marks, t, r, k) {
        match e
        case Write(u, x) =>
          assert r in RowsOf(w.db, t.name) || (u == t && r == x);
        case _ =>
          assert r in RowsOf(w.db, t.name);
      }
    }
  }

  /** With a stale head the guarantee is lost, whatever else the run writes and records: if its head is not newer than the
      marks of an interrupted run whose recovery would have gone through before, and it writes only above those marks, every
      uncut recovery of that run removes all of its rows there, although the version has finished. */
  lemma {:induction false} StaleHeadIsUnsafe(tables: seq<Table>, c: int, worlds: seq<World>, events: seq<Event>, o: int, j: nat, after: World)
    requires Schema(tables) && WholeRun(tables, c, worlds, events) && DbOk(tables, worlds[0].db)
    requires o != c && o in worlds[0].marks && MarkOk(tables, worlds[0], o)
    requires COMMIT in worlds[0].marks[o] && c <= worlds[0].marks[o][COMMIT]
    requires !NewerFinished(worlds[0], worlds[0].marks[o]) && Prechecked(tables, worlds[0].marks[o], worlds[0].db)
    requires forall k :: 0 <= k < |events| && events[k].Write? ==> AboveOwnMark(worlds[0].marks[o], events[k].table, events[k].row)
    requires 0 < j < |events| - 1 && events[j].Write? && AboveMarks(tables, worlds[0].marks[o], events[j].table, events[j].row)
    requires Recovers(tables, worlds[|events|], o, after)
    ensures Finished(tables, worlds[|events|], c, events[j].table, events[j].row)
    ensures events[j].row in RowsOf(worlds[|events|].db, events[j].table.name) && events[j].row !in RowsOf(after.db, events[j].table.name)
  {
    assert |worlds| == |events| + 1;
    hide Schema, DbOk, WholeRun, Recovers, MarkOk, AboveMarks, Prechecked, Finished, AboveOwnMark, HasStatus;
    StillPrechecked(tables, c, worlds, events, worlds[0].marks[o], |events|);
    FinishedRows(tables, c, worlds, events, j);
    FinishedRowRemovedIff(tables, c, worlds, events, o, j, after);
  }

  lemma {:induction false} FinishedIsDone(db: Rows, network: int, c: int)
    ensures HasStatus(WithStatus(db, network, c, DONE), c, DONE)
  {
    assert StateRow(network, c, DONE) in RowsOf(WithStatus(db, network, c, DONE), STATE_TABLE);
  }

  // ---------------------------------------------------------------- a stale head, concretely

  const TAG_ID := "tag_id"

  function CommitRow(id: int): Row {
    Row(map[COMMIT_ID := id])
  }

  function TagRow(id: int): Row {
    Row(map[TAG_ID := id])
  }

  const COMMITS := Table(COMMIT, [Column(COMMIT_ID, true)], [COMMIT_ID], [])
  const TAGS := Table("m_tag", [Column(TAG_ID, true)], [TAG_ID], [])
  const STATES := Table(STATE_TABLE, [Column(COMMIT_ID, true)], [NETWORK_ID, COMMIT_ID], [Foreign(COMMIT_ID, COMMIT, COMMIT_ID)])
  const TABLES := [STATES, COMMITS, TAGS]
  const MARKS := map[COMMIT := 2, "m_tag" := 0]

  /** Both versions are registered; the run of version 2 was interrupted, and no version has finished. */
  function Interrupted(): World {
    World(map[COMMIT := {CommitRow(1), CommitRow(2)}], map[2 := MARKS], map[], None, map[])
  }

  function Begun(): World {
    var w := Interrupted();
    World(WithStatus(w.db, 0, 1, PARSING), w.marks[1 := MARKS], map[], Some(1), map[1 := {}])
  }

  function Wrote(): World {
    var w := Begun();
    World(w.db["m_tag" := {TagRow(1)}], w.marks, map[], Some(1), map[1 := {("m_tag", TagRow(1))}])
  }

  function Completed(): World {
    var w := Wrote();
    World(WithStatus(w.db, 0, 1, DONE), map[2 := MARKS], map[], None, w.written)
  }

  const WORLDS := [Interrupted(), Begun(), Wrote(), Completed()]
  const EVENTS := [Begin(0, 1), Write(TAGS, TagRow(1)), Finish(0)]

  lemma {:induction false} InTables(t: Table)
    ensures t in TABLES <==> t == STATES || t == COMMITS || t == TAGS
  {
    assert STATES in TABLES && COMMITS in TABLES && TAGS in TABLES;
  }

  lemma {:induction false} SmallSchema()
    ensures IdColumn(COMMITS) == Some(COMMIT_ID) && IdColumn(TAGS) == Some(TAG_ID) && IdColumn(STATES) == None && Schema(TABLES)
  {
    SmallIds();
    hide IdColumn;
    assert STATES.foreign[0].col == COMMIT_ID && References(STATES, COMMIT_ID, COMMIT);
    forall t ensures t in TABLES <==> t == STATES || t == COMMITS || t == TAGS {
      InTables(t);
    }
    assert Cleared(TABLES, STATES);
    assert Sound(TABLES);
  }

  lemma {:induction false} SmallIds()
    ensures IdColumn(COMMITS) == Some(COMMIT_ID) && IdColumn(TAGS) == Some(TAG_ID) && IdColumn(STATES) == None
  {
    assert COMMITS.columns[0].name == COMMIT_ID && COMMITS.columns[0].isInt;
    assert TAGS.columns[0].name == TAG_ID && TAGS.columns[0].isInt;
  }

  lemma {:induction false} InterruptedOk()
    ensures WorldInv(TABLES, Interrupted())
  {
    SmallSchema();
    hide Schema, Sound;
    var w := Interrupted();
    forall t ensures t in TABLES <==> t == STATES || t == COMMITS || t == TAGS {
      InTables(t);
    }
    assert RowsOf(w.db, STATE_TABLE) == {} && RowsOf(w.db, "m_tag") == {};
    forall d, t, r ensures RowKept(TABLES, w, d, t, r) && !Finished(TABLES, w, d, t, r) {
    }
    assert DbOk(TABLES, w.db);
    assert MarksOk(TABLES, w);
  }

  lemma {:induction false} ExampleMarks()
    ensures MarksOf(TABLES, Interrupted().db, MARKS)
  {
    SmallSchema();
    hide Schema;
    forall t ensures t in TABLES <==> t == STATES || t == COMMITS || t == TAGS {
      InTables(t);
    }
    var rows := {CommitRow(1), CommitRow(2)};
    assert CommitRow(1).At(COMMIT_ID) == 1 && CommitRow(2).At(COMMIT_ID) == 2;
    assert CommitRow(2) in rows && Highest(rows, COMMIT_ID, 2);
    assert RowsOf(Interrupted().db, "m_tag") == {} && Highest({}, TAG_ID, 0);
    assert (set t | t in TABLES && Marked(t) :: t.name) == {COMMIT, "m_tag"};
  }

  lemma {:induction false} ExampleBegins()
    ensures !FreshHead(Interrupted(), 1) && Happens(TABLES, Interrupted(), Begin(0, 1), Begun())
  {
    ExampleMarks();
    hide MarksOf;
    var w := Interrupted();
    forall t ensures t in TABLES <==> t == STATES || t == COMMITS || t == TAGS {
      InTables(t);
    }
    assert CommitRow(1).At(COMMIT_ID) == 1 && CommitRow(1) in RowsOf(w.db, COMMIT);
    assert RowsOf(w.db, STATE_TABLE) == {};
    assert 2 in w.marks;
  }

  lemma {:induction false} ExampleWrites()
    ensures Happens(TABLES, Begun(), Write(TAGS, TagRow(1)), Wrote())
  {
    hide WithStatus, IdColumn;
    var w := Begun();
    StatusRows(Interrupted().db, 0, 1, PARSING, "m_tag");
    assert RowsOf(w.db, "m_tag") == {};
    assert TAGS in TABLES by {
      InTables(TAGS);
    }
    assert RowsOf(w.db, "m_tag") + {TagRow(1)} == {TagRow(1)};
    assert w.Written(1) + {("m_tag", TagRow(1))} == {("m_tag", TagRow(1))};
  }

  lemma {:induction false} ExampleFinishes()
    ensures Happens(TABLES, Wrote(), Finish(0), Completed())
  {
    hide WithStatus;
    assert Wrote().marks - {1} == map[2 := MARKS];
  }

  lemma {:induction false} ExamplePrechecked()
    ensures Prechecked(TABLES, MARKS, Interrupted().db)
  {
    forall t | t in TABLES ensures TablePrechecked(t, MARKS, Interrupted().db) {
      InTables(t);
    }
  }

  /** The run of version 2 was interrupted. Version 1 then runs, writes tag 1 and finishes; every uncut recovery of version 2
      removes tag 1. */
  lemma {:induction false} StaleHeadExample(after: World)
    requires Recovers(TABLES, Completed(), 2, after)
    ensures Schema(TABLES) && WorldInv(TABLES, Interrupted()) && !FreshHead(Interrupted(), 1) && WholeRun(TABLES, 1, WORLDS, EVENTS)
    ensures Finished(TABLES, Completed(), 1, TAGS, TagRow(1))
    ensures TagRow(1) in RowsOf(Completed().db, "m_tag") && TagRow(1) !in RowsOf(after.db, "m_tag")
  {
    SmallSchema();
    InterruptedOk();
    ExampleBegins();
    ExampleRun();
    ExamplePrechecked();
    InterruptedParts();
    ExampleAbove();
    hide Schema, Recovers, Prechecked, WorldInv, WholeRun, MarkOk, DbOk, NewerFinished, AboveMarks, AboveOwnMark, Finished, WithStatus, Happens;
    StaleHeadIsUnsafe(TABLES, 1, WORLDS, EVENTS, 2, 1, after);
  }

  lemma {:induction false} ExampleRun()
    ensures WholeRun(TABLES, 1, WORLDS, EVENTS)
  {
    ExampleBegins();
    ExampleWrites();
    ExampleFinishes();
    hide Happens, WithStatus;
  }

  lemma {:induction false} ExampleAbove()
    ensures AboveMarks(TABLES, MARKS, TAGS, TagRow(1)) && AboveOwnMark(MARKS, TAGS, TagRow(1))
  {
    assert TAGS.columns[0].name == TAG_ID && TAGS.columns[0].isInt;
    assert TagRow(1).At(TAG_ID) == 1;
  }

  lemma {:induction false} InterruptedParts()
    ensures DbOk(TABLES, Interrupted().db) && MarkOk(TABLES, Interrupted(), 2) && !NewerFinished(Interrupted(), MARKS)
  {
    InterruptedOk();
    hide DbOk, MarksFor;
    assert MarksOk(TABLES, Interrupted()) && 2 in Interrupted().marks;
    NoneDone();
    hide HasStatus;
  }

  lemma {:induction false} NoneDone()
    ensures forall d :: !Done(Interrupted(), d)
  {
  }
}
