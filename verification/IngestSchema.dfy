/** A database schema and its rows, as core/ingest_state.py sees them: allocated ids, foreign keys, and the deletes
    that undo an interrupted run. */
module IngestSchema {
  import opened Basics

  /** A foreign key: `col` holds a value of `parent`.`pcol`. */
  datatype Foreign = Foreign(col: string, parent: string, pcol: string)

  /** `isInt` says whether the column's type name contains INT. */
  datatype Column = Column(name: string, isInt: bool)

  datatype Table = Table(name: string, columns: seq<Column>, primary: seq<string>, foreign: seq<Foreign>)

  datatype Row = Row(cells: map<string, int>) {
    function At(col: string): int {
      if col in cells then cells[col] else 0
    }
  }

  /** The rows of every table. */
  type Rows = map<string, set<Row>>

  function RowsOf(db: Rows, table: string): set<Row> {
    if table in db then db[table] else {}
  }

  const FILE_BLOB := "m_file_blob"
  const COMMIT := "m_commit"
  const COMMIT_ID := "commit_id"

  /** Tables with a single id whose rows no run creates. */
  const STATIC_TABLES: set<string> := {"m_type_descriptor", "m_project", "m_git_network", "m_repository", "m_git_ref"}

  /** Tables that reference blobs from a commit's point of view. */
  const COMMIT_SCOPED: set<string> := {"m_bridge_checkpoint", "m_commit_file", "m_bridge_commit_tag", "m_blob_transition"}

  /** Rows describing a version's head commit. */
  const VERSION_ROWS: seq<string> := ["m_bridge_checkpoint", "m_arch_root"]

  const IN_CHUNK := 1000
  const DELETE_CHUNK := 50_000

  /** The allocated id column: a single INT primary key that is not a foreign key of a static table. */
  function IdColumn(t: Table): Option<string> {
    if |t.primary| != 1 || t.name in STATIC_TABLES then None
    else
      var col := t.primary[0];
      if (exists i :: 0 <= i < |t.columns| && t.columns[i].name == col && t.columns[i].isInt)
         && !(exists i :: 0 <= i < |t.foreign| && t.foreign[i].col == col)
      then Some(col) else None
  }

  predicate Marked(t: Table) {
    IdColumn(t).Some?
  }

  predicate References(child: Table, col: string, parent: string) {
    exists i :: 0 <= i < |child.foreign| && child.foreign[i].col == col && child.foreign[i].parent == parent
  }

  /** The rows parsing a blob produces, found by this column. */
  predicate BlobDerived(t: Table, col: string) {
    t.name !in COMMIT_SCOPED && References(t, col, FILE_BLOB)
  }

  // ---------------------------------------------------------------- deletes

  datatype Where =
    | Eq(col: string, value: int)
    | In(col: string, values: seq<int>)
    | InSub(col: string, sub: string, pk: string, subCol: string, values: seq<int>)
    | Above(col: string, value: int)

  datatype Delete = Delete(table: string, where: Where)

  predicate Matches(db: Rows, w: Where, r: Row) {
    match w
    case Eq(col, value) => r.At(col) == value
    case In(col, values) => r.At(col) in values
    case InSub(col, sub, pk, subCol, values) => exists s :: s in RowsOf(db, sub) && s.At(subCol) in values && s.At(pk) == r.At(col)
    case Above(col, value) => r.At(col) > value
  }

  /** No row is left for the delete to remove. */
  ghost predicate Spent(db: Rows, d: Delete) {
    forall r :: r in RowsOf(db, d.table) ==> !Matches(db, d.where, r)
  }

  // ---------------------------------------------------------------- integrity

  ghost predicate RefOk(db: Rows, f: Foreign, r: Row) {
    exists p :: p in RowsOf(db, f.parent) && p.At(f.pcol) == r.At(f.col)
  }

  /** Every reference of the row points at a row that exists. */
  ghost predicate RefersOk(db: Rows, t: Table, r: Row) {
    forall i :: 0 <= i < |t.foreign| ==> RefOk(db, t.foreign[i], r)
  }

  /** No foreign key points at a missing row. */
  ghost predicate Intact(tables: seq<Table>, db: Rows) {
    forall t, r :: t in tables && r in RowsOf(db, t.name) ==> RefersOk(db, t, r)
  }

  /** Allocated ids are unique. */
  ghost predicate UniqueIds(tables: seq<Table>, db: Rows) {
    forall t, r, s :: t in tables && Marked(t) && r in RowsOf(db, t.name) && s in RowsOf(db, t.name) ==>
      (r.At(IdColumn(t).value) == s.At(IdColumn(t).value) ==> r == s)
  }

  ghost predicate Below(db: Rows, db': Rows) {
    forall name, r :: r in RowsOf(db, name) ==> r in RowsOf(db', name)
  }

  /** Rows of these tables may be deleted although the table has no allocated id. */
  ghost predicate Cleared(tables: seq<Table>, t: Table) {
    || t.name in VERSION_ROWS
    || (exists col :: BlobDerived(t, col))
    || (exists p, col :: p in tables && Marked(p) && References(t, col, p.name))
  }

  ghost predicate DistinctNames(tables: seq<Table>) {
    forall i, j :: 0 <= i < j < |tables| ==> tables[i].name != tables[j].name
  }

  /** What the rollback relies on: references to allocated ids use that id, tables cleared without having one are not
      referenced, children of rows derived from blobs have no id of their own, and no table references itself. */
  ghost predicate Sound(tables: seq<Table>) {
    && DistinctNames(tables)
    && (forall t, u :: t in tables && u in tables && t.name == u.name ==> t == u)
    && (forall t, i, p :: t in tables && 0 <= i < |t.foreign| && p in tables && p.name == t.foreign[i].parent ==>
          if Marked(p) then t.foreign[i].pcol == IdColumn(p).value && p.name != t.name else !Cleared(tables, p))
    && (forall t, col, c, ccol :: t in tables && BlobDerived(t, col) && Marked(t) && c in tables && References(c, ccol, t.name) ==> !Marked(c))
    && (forall t :: t in tables && t.name in VERSION_ROWS ==> !Marked(t))
  }

  /** A rank witnesses that marked tables do not reference each other in a cycle. */
  ghost predicate Ranked(tables: seq<Table>, rank: map<string, nat>) {
    forall c, p, col :: c in tables && p in tables && Marked(c) && Marked(p) && c.name != p.name && References(c, col, p.name) ==>
      c.name in rank && p.name in rank && rank[c.name] > rank[p.name]
  }

  ghost predicate MarksFor(tables: seq<Table>, marks: map<string, int>) {
    forall t :: t in tables ==> (t.name in marks <==> Marked(t))
  }

  // ---------------------------------------------------------------- what a rollback removes

  /** An interrupted run: its marks, its head commit and the older blobs it parsed. */
  datatype Run = Run(marks: map<string, int>, commit: int, blobs: set<int>)

  /** The row hangs off a row derived from one of the blobs. */
  ghost predicate HangsOff(tables: seq<Table>, db: Rows, blobs: set<int>, t: Table, r: Row) {
    exists p, pcol, col, s :: p in tables && Marked(p) && BlobDerived(p, pcol) && References(t, col, p.name)
                              && s in RowsOf(db, p.name) && s.At(pcol) in blobs && s.At(IdColumn(p).value) == r.At(col)
  }

  /** The row lies above the marks, or references a row that does. */
  ghost predicate AboveMarks(tables: seq<Table>, marks: map<string, int>, t: Table, r: Row) {
    if Marked(t) then t.name in marks && r.At(IdColumn(t).value) > marks[t.name]
    else exists p, col :: p in tables && Marked(p) && p.name in marks && References(t, col, p.name) && r.At(col) > marks[p.name]
  }

  /** The rows of the run, as they stood in `db`: seen at once, without an order of deletes. */
  ghost predicate Condemned(tables: seq<Table>, run: Run, db: Rows, t: Table, r: Row) {
    || (t.name in VERSION_ROWS && r.At(COMMIT_ID) == run.commit)
    || (exists col :: BlobDerived(t, col) && r.At(col) in run.blobs)
    || HangsOff(tables, db, run.blobs, t, r)
    || AboveMarks(tables, run.marks, t, r)
  }

  /** The database without the rows of the run. */
  ghost predicate RolledBack(tables: seq<Table>, run: Run, before: Rows, after: Rows) {
    && Below(after, before)
    && forall t, r :: t in tables && r in RowsOf(before, t.name) ==> (r in RowsOf(after, t.name) <==> !Condemned(tables, run, before, t, r))
  }

  predicate OlderRefersOlder(marks: map<string, int>, t: Table, r: Row, k: nat)
    requires k < |t.foreign| && Marked(t) && t.name in marks
  {
    t.foreign[k].parent in marks && t.foreign[k].parent != t.name && r.At(IdColumn(t).value) <= marks[t.name] ==>
      r.At(t.foreign[k].col) <= marks[t.foreign[k].parent]
  }

  ghost predicate TablePrechecked(t: Table, marks: map<string, int>, db: Rows) {
    Marked(t) && t.name in marks ==> forall r, k :: r in RowsOf(db, t.name) && 0 <= k < |t.foreign| ==> OlderRefersOlder(marks, t, r, k)
  }

  /** No row older than the run references a row the run created; otherwise the rollback refuses to start. */
  ghost predicate Prechecked(tables: seq<Table>, marks: map<string, int>, db: Rows) {
    forall t :: t in tables ==> TablePrechecked(t, marks, db)
  }
}
