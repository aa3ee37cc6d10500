/** The bookkeeping of core/ingest_state.py: marks and statuses of version runs, and `rollback_version`. */
module IngestState {
  import opened Basics
  import opened IngestSchema
  import opened RollbackRun
  import Plan = RollbackPlan

  const PARSING := 1
  const DONE := 2
  const STATE_TABLE := "m_ingest_state"
  const NETWORK_ID := "network_id"
  const STATUS := "status"

  datatype Outcome = NoMarks | Stale | Refused | Undone

  function StateRow(network: int, commit: int, status: int): Row {
    Row(map[NETWORK_ID := network, COMMIT_ID := commit, STATUS := status])
  }

  /** Upsert of a version's status: at most one row per network and commit. */
  function WithStatus(db: Rows, network: int, commit: int, status: int): Rows {
    db[STATE_TABLE := (set r | r in RowsOf(db, STATE_TABLE) && !(r.At(NETWORK_ID) == network && r.At(COMMIT_ID) == commit))
                      + {StateRow(network, commit, status)}]
  }

  /** The version has this status and no other; all other rows are as they were. */
  ghost predicate OneStatus(before: Rows, after: Rows, network: int, commit: int, status: int) {
    && (exists r :: r in RowsOf(after, "m_ingest_state") && IsStatusOf(r, network, commit) && r.At("status") == status)
    && (forall r :: r in RowsOf(after, "m_ingest_state") && IsStatusOf(r, network, commit) ==> r.At("status") == status)
    && (forall r :: !IsStatusOf(r, network, commit) ==> (r in RowsOf(after, "m_ingest_state") <==> r in RowsOf(before, "m_ingest_state")))
    && forall t :: t != "m_ingest_state" ==> RowsOf(after, t) == RowsOf(before, t)
  }

  predicate IsStatusOf(r: Row, network: int, commit: int) {
    r.At("network_id") == network && r.At("commit_id") == commit
  }

  lemma {:induction false} StatusRows(db: Rows, network: int, commit: int, status: int)
    ensures OneStatus(db, WithStatus(db, network, commit, status), network, commit, status)
  {
    var row := StateRow(network, commit, status);
    assert row in RowsOf(WithStatus(db, network, commit, status), STATE_TABLE) && IsStatusOf(row, network, commit);
  }

  predicate HasStatus(db: Rows, commit: int, status: int) {
    exists r :: r in RowsOf(db, STATE_TABLE) && r.At(COMMIT_ID) == commit && r.At(STATUS) == status
  }

  /** A version finished whose head commit is newer than the marks. */
  predicate CompletedAfter(db: Rows, marks: map<string, int>) {
    COMMIT in marks && exists r :: r in RowsOf(db, STATE_TABLE) && r.At(STATUS) == DONE && r.At(COMMIT_ID) > marks[COMMIT]
  }

  /** The highest id of a table, 0 when it is empty. */
  ghost predicate Highest(rows: set<Row>, col: string, max: int) {
    && (forall r :: r in rows ==> r.At(col) <= max || rows == {})
    && (if rows == {} then max == 0 else exists r :: r in rows && r.At(col) == max)
  }

  method MaxId(rows: set<Row>, col: string) returns (max: int)
    ensures Highest(rows, col, max)
  {
    max := 0;
    if rows == {} {
      return;
    }
    var r := Pick(rows);
    max := r.At(col);
    var rest := rows - {r};
    while rest != {}
      invariant rest < rows
      invariant forall x :: x in rows && x !in rest ==> x.At(col) <= max
      invariant exists x :: x in rows && x.At(col) == max
      decreases |rest|
    {
      var x := Pick(rest);
      if x.At(col) > max {
        max := x.At(col);
      }
      rest := rest - {x};
    }
  }

  /** The marks `begin` records: for every table with an allocated id, its highest id. */
  ghost predicate MarksOf(tables: seq<Table>, db: Rows, marks: map<string, int>) {
    && marks.Keys == (set t | t in tables && Marked(t) :: t.name)
    && forall t :: t in tables && Marked(t) ==> t.name in marks && Highest(RowsOf(db, t.name), IdColumn(t).value, marks[t.name])
  }

  lemma {:induction false} MarksTaken(tables: seq<Table>, db: Rows, marks: map<string, int>)
    requires Sound(tables) && MarksOf(tables, db, marks)
    ensures MarksFor(tables, marks) && TakenFrom(tables, marks, db)
  {
    forall t | t in tables ensures t.name in marks <==> Marked(t) {
      if t.name in marks {
        assert t.name in (set u | u in tables && Marked(u) :: u.name);
        var u :| u in tables && Marked(u) && u.name == t.name;
      }
    }
  }

  method TakeMarks(tables: seq<Table>, db: Rows) returns (taken: map<string, int>)
    requires DistinctNames(tables)
    ensures MarksOf(tables, db, taken)
    ensures forall t :: t in tables && HasOwnId(t) ==> t.name in taken
    ensures forall name :: name in taken ==> exists t :: t in tables && t.name == name && HasOwnId(t)
  {
    taken := map[];
    for i := 0 to |tables|
      invariant taken.Keys == (set t | t in tables[..i] && Marked(t) :: t.name)
      invariant forall t :: t in tables[..i] && Marked(t) ==> t.name in taken && Highest(RowsOf(db, t.name), IdColumn(t).value, taken[t.name])
    {
      assert tables[..i + 1] == tables[..i] + [tables[i]];
      forall t | t in tables[..i] ensures t.name != tables[i].name {
        var k :| 0 <= k < i && tables[k] == t;
      }
      if Marked(tables[i]) {
        var max := MaxId(RowsOf(db, tables[i].name), IdColumn(tables[i]).value);
        taken := taken[tables[i].name := max];
      }
    }
    assert tables[..|tables|] == tables;
    forall t | t in tables ensures Marked(t) <==> HasOwnId(t) {
      MarkedHaveIds(t);
    }
  }

  lemma {:induction false} MarkedHaveIds(t: Table)
    ensures Marked(t) <==> HasOwnId(t)
  {
  }

  /** Rows of older commits stay whatever blobs were recorded, and none of the run's own rows is left. */
  ghost predicate OnlyTheRuns(tables: seq<Table>, run: Run, before: Rows, after: Rows) {
    && (forall t, r :: t in tables && r in RowsOf(before, t.name) && OlderCommitRow(tables, run, t, r) ==> r in RowsOf(after, t.name))
    && forall t, r :: t in tables && r in RowsOf(after, t.name) ==> !RunsOwn(run, t, r)
  }

  lemma {:induction false} OnlyTheRunsRows(tables: seq<Table>, run: Run, before: Rows, after: Rows)
    requires RolledBack(tables, run, before, after)
    ensures OnlyTheRuns(tables, run, before, after)
  {
    hide RolledBack, OlderCommitRow, RunsOwn;
    forall t, r | t in tables && r in RowsOf(before, t.name) && OlderCommitRow(tables, run, t, r) ensures r in RowsOf(after, t.name) {
      OlderCommitsKeepTheirRows(tables, run, before, after, t, r);
    }
    forall t, r | t in tables && r in RowsOf(after, t.name) ensures !RunsOwn(run, t, r) {
      RunsRowsAreGone(tables, run, before, after, t, r);
    }
  }

  class Ingest {
    const tables: seq<Table>
    ghost const rank: map<string, nat>
    var db: Rows
    var marks: map<int, map<string, int>>
    var blobs: map<int, set<int>>

    constructor (tables: seq<Table>, ghost rank: map<string, nat>, db: Rows)
      ensures this.tables == tables && this.rank == rank && this.db == db && marks == map[] && blobs == map[]
    {
      this.tables, this.rank, this.db, marks, blobs := tables, rank, db, map[], map[];
    }

    function RunOf(commit: int): Run
      requires commit in marks
      reads this
    {
      Run(marks[commit], commit, if commit in blobs then blobs[commit] else {})
    }

    method DiscardMarks(commit: int)
      modifies this`marks, this`blobs
      ensures marks == old(marks) - {commit} && blobs == old(blobs) - {commit}
    {
      marks, blobs := marks - {commit}, blobs - {commit};
    }

    /** Record a version's status; a finished version needs its marks no more. */
    method SetStatus(network: int, commit: int, status: int)
      modifies this
      ensures commit == 0 ==> db == old(db) && marks == old(marks) && blobs == old(blobs)
      ensures commit != 0 ==> db == WithStatus(old(db), network, commit, status) && OneStatus(old(db), db, network, commit, status)
      ensures commit != 0 && status == DONE ==> marks == old(marks) - {commit} && blobs == old(blobs) - {commit}
      ensures status != DONE ==> marks == old(marks) && blobs == old(blobs)
    {
      if commit == 0 {
        return;
      }
      StatusRows(db, network, commit, status);
      db := WithStatus(db, network, commit, status);
      if status == DONE {
        DiscardMarks(commit);
      }
    }

    /** Mark a version as being parsed and record the watermarks of its run. */
    method Begin(network: int, commit: int)
      requires Sound(tables)
      modifies this
      ensures commit == 0 ==> db == old(db) && marks == old(marks) && blobs == old(blobs)
      ensures commit != 0 ==> db == WithStatus(old(db), network, commit, PARSING) && blobs == old(blobs) - {commit}
                              && commit in marks && marks == old(marks)[commit := marks[commit]] && MarksOf(tables, old(db), marks[commit])
    {
      if commit == 0 {
        return;
      }
      DiscardMarks(commit);
      var taken := TakeMarks(tables, db);
      marks := marks[commit := taken];
      assert marks == old(marks)[commit := taken];
      SetStatus(network, commit, PARSING);
    }

    /** Record older blobs the run is about to parse. */
    method RecordBlobs(commit: int, ids: set<int>)
      modifies this`blobs
      ensures blobs == if ids == {} || commit == 0 then old(blobs)
                       else old(blobs)[commit := (if commit in old(blobs) then old(blobs)[commit] else {}) + ids]
    {
      if ids == {} || commit == 0 {
        return;
      }
      blobs := blobs[commit := (if commit in blobs then blobs[commit] else {}) + ids];
    }

    /** `DELETE … LIMIT`: some of the matching rows, all of them when fewer than a chunk match. */
    method DeleteChunk(d: Delete) returns (deleted: nat)
      modifies this`db
      ensures RemovesSome(old(db), d, db)
      ensures deleted < DELETE_CHUNK ==> forall r :: r in RowsOf(db, d.table) ==> !Matches(old(db), d.where, r)
      ensures deleted >= DELETE_CHUNK ==> |RowsOf(db, d.table)| < |RowsOf(old(db), d.table)|
    {
      var matching := set r | r in RowsOf(db, d.table) && Matches(db, d.where, r);
      var chunk := TakeChunk(matching);
      deleted := |chunk|;
      ghost var before := RowsOf(db, d.table);
      db := db[d.table := RowsOf(db, d.table) - chunk];
      assert RowsOf(db, d.table) == before - chunk;
      if deleted >= DELETE_CHUNK {
        assert before == (before - chunk) + chunk;
      }
    }

    /** Undo the rows of an interrupted run. */
    method RollbackVersion(commit: int) returns (outcome: Outcome)
      requires Sound(tables) && Ranked(tables, rank) && Intact(tables, db) && UniqueIds(tables, db)
      requires commit in marks ==> MarksFor(tables, marks[commit])
      modifies this
      ensures outcome == NoMarks <==> commit !in old(marks) || old(marks)[commit] == map[]
      ensures outcome == NoMarks ==> db == old(db) && marks == old(marks) && blobs == old(blobs)
      ensures outcome == Stale <==> commit in old(marks) && old(marks)[commit] != map[] && CompletedAfter(old(db), old(marks)[commit])
      ensures outcome == Stale ==> db == old(db)
      ensures outcome == Refused ==> db == old(db) && marks == old(marks) && blobs == old(blobs)
      ensures outcome == Undone || outcome == Stale ==> marks == old(marks) - {commit} && blobs == old(blobs) - {commit}
      ensures outcome == Undone || outcome == Refused ==>
                (outcome == Undone <==> Prechecked(tables, old(marks)[commit], old(db)))
      ensures outcome == Undone ==> RolledBack(tables, old(RunOf(commit)), old(db), db) && Intact(tables, db) && UniqueIds(tables, db)
      ensures outcome == Undone ==> OnlyTheRuns(tables, old(RunOf(commit)), old(db), db)
    {
      if commit !in marks || marks[commit] == map[] {
        return NoMarks;
      }
      var run := RunOf(commit);
      if CompletedAfter(db, run.marks) {
        DiscardMarks(commit);
        return Stale;
      }
      var ok := Precheck(tables, run.marks, db);
      if !ok {
        return Refused;
      }
      var plan := Plan.RollbackPlan(tables, run, rank);
      RunPlan(run, plan);
      OnlyTheRunsRows(tables, run, old(db), db);
      DiscardMarks(commit);
      outcome := Undone;
    }

    /** Every delete of the plan, chunk by chunk; a delete that matches nothing is skipped. */
    method RunPlan(ghost run: Run, plan: seq<Delete>)
      requires Startable(tables, run, db) && GoodPlan(tables, run, plan)
      modifies this`db
      ensures RolledBack(tables, run, old(db), db) && Intact(tables, db) && UniqueIds(tables, db)
    {
      ghost var before := db;
      for i := 0 to |plan|
        invariant Inv(tables, run, plan, before, State(db, i))
      {
        hide Startable, GoodPlan, Inv, Spent;
        RunDelete(run, plan, i, before);
        ghost var s := State(db, i);
        StepKeeps(tables, run, plan, before, s, State(db, i + 1));
      }
      CompleteIsRolledBack(tables, run, plan, before, State(db, |plan|));
      CutStartable(tables, run, plan, before, State(db, |plan|));
    }

    /** One delete, in chunks, until a chunk is not full. */
    method RunDelete(ghost run: Run, plan: seq<Delete>, i: nat, ghost before: Rows)
      requires i < |plan| && Startable(tables, run, before) && GoodPlan(tables, run, plan) && Inv(tables, run, plan, before, State(db, i))
      modifies this`db
      ensures Inv(tables, run, plan, before, State(db, i)) && Spent(db, plan[i])
    {
      hide Startable, GoodPlan, Inv;
      var d := plan[i];
      if !exists r :: r in RowsOf(db, d.table) && Matches(db, d.where, r) {
        return;
      }
      var more := true;
      while more
        invariant Inv(tables, run, plan, before, State(db, i))
        invariant !more ==> Spent(db, d)
        decreases more, |RowsOf(db, d.table)|
      {
        ghost var was := db;
        var deleted := DeleteChunk(d);
        ChunkKeeps(tables, run, plan, before, State(was, i), db);
        if deleted < DELETE_CHUNK {
          more := false;
          SpentAfter(was, d, db);
        }
      }
    }
  }

  lemma {:induction false} SpentAfter(was: Rows, d: Delete, db: Rows)
    requires RemovesSome(was, d, db) && forall r :: r in RowsOf(db, d.table) ==> !Matches(was, d.where, r)
    ensures Spent(db, d)
  {
    RemovesBelow(was, d, db);
    forall r | r in RowsOf(db, d.table) ensures !Matches(db, d.where, r) {
      if Matches(db, d.where, r) {
        MatchesShrinks(was, db, d.where, r);
        assert false;
      }
    }
  }

  method TakeChunk(rows: set<Row>) returns (chunk: set<Row>)
    ensures chunk <= rows && |chunk| <= DELETE_CHUNK && (|chunk| < DELETE_CHUNK ==> chunk == rows)
  {
    chunk := {};
    var rest := rows;
    while rest != {} && |chunk| < DELETE_CHUNK
      invariant chunk <= rows && rest == rows - chunk && |chunk| <= DELETE_CHUNK
      decreases |rest|
    {
      var r := Pick(rest);
      chunk := chunk + {r};
      rest := rest - {r};
    }
  }

  /** The row's id lies at or below its table's mark, and its reference to another marked table above that one's. */
  predicate RefersToNewer(marks: map<string, int>, t: Table, r: Row, k: nat) {
    && HasOwnId(t) && t.name in marks && r.At(t.primary[0]) <= marks[t.name]
    && k < |t.foreign| && t.foreign[k].parent in marks && t.foreign[k].parent != t.name
    && r.At(t.foreign[k].col) > marks[t.foreign[k].parent]
  }

  lemma {:induction false} PrecheckedIs(tables: seq<Table>, marks: map<string, int>, db: Rows)
    ensures Prechecked(tables, marks, db) <==> forall t, r, k :: t in tables && r in RowsOf(db, t.name) ==> !RefersToNewer(marks, t, r, k)
  {
    forall t, r, k: nat | t in tables && k < |t.foreign| ensures RefersToNewer(marks, t, r, k) <==> Marked(t) && t.name in marks && !OlderRefersOlder(marks, t, r, k) {
      MarkedHaveIds(t);
    }
    forall t | t in tables ensures TablePrechecked(t, marks, db) <==> forall r, k: nat :: r in RowsOf(db, t.name) ==> !RefersToNewer(marks, t, r, k) {
      MarkedHaveIds(t);
    }
  }

  /** No row older than the run references a row it created. */
  method Precheck(tables: seq<Table>, marks: map<string, int>, db: Rows) returns (ok: bool)
    ensures ok <==> Prechecked(tables, marks, db)
    ensures ok <==> forall t, r, k :: t in tables && r in RowsOf(db, t.name) ==> !RefersToNewer(marks, t, r, k)
  {
    PrecheckedIs(tables, marks, db);
    for i := 0 to |tables|
      invariant forall k :: 0 <= k < i ==> TablePrechecked(tables[k], marks, db)
    {
      var t := tables[i];
      if Marked(t) && t.name in marks {
        for j := 0 to |t.foreign|
          invariant forall r, k :: r in RowsOf(db, t.name) && 0 <= k < j ==> OlderRefersOlder(marks, t, r, k)
        {
          if exists r :: r in RowsOf(db, t.name) && !OlderRefersOlder(marks, t, r, j) {
            assert t in tables && !TablePrechecked(t, marks, db);
            return false;
          }
        }
      }
    }
    return true;
  }
}
