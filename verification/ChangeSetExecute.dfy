/** Executing a ChangeSet's operations (core/TableHandling.py): out of order, over as many calls as it takes for references
    to resolve, each operation submitted to the table engine exactly once. */
module ChangeSetExecute {
  import opened Basics

  datatype Safe = Null | Val(v: int)

  /** A column: a value, a reference to a column of an operation of the same file, or a reference to another file. */
  datatype Cell = Plain(value: Safe) | Pos(col: nat, idx: nat) | Far(route: int)

  datatype Kind = SetOp | UpdateOp | ViewSetOp | DoneOp | UnknownOp

  datatype Op = Op(target: int, kind: Kind, data: seq<Cell>)

  /** What the table engine is given: the operation's number, for the record, and reference-free data. */
  datatype Submission = Submission(idx: nat, kind: Kind, target: int, data: seq<Safe>)

  /** Symbols of other files that can be looked up at the time of a call. */
  type Lookup = int -> Option<Safe>

  /** The table engine's answer to a submission, given how many came before: any full row. */
  type Answers = (nat, Submission) -> seq<Safe>

  /** `lookups` holds, for every submission, what could be looked up when it was made. */
  datatype State = State(results: seq<Option<seq<Cell>>>, unresolved: set<nat>, log: seq<Submission>, lookups: seq<Lookup>)

  predicate Submits(kind: Kind) {
    kind.SetOp? || kind.UpdateOp? || kind.ViewSetOp?
  }

  /** References name existing columns of existing operations. */
  predicate WellFormed(ops: seq<Op>) {
    forall i, c :: 0 <= i < |ops| && 0 <= c < |ops[i].data| && ops[i].data[c].Pos? ==>
      ops[i].data[c].idx < |ops| && ops[i].data[c].col < |ops[ops[i].data[c].idx].data|
  }

  /** The engine returns every column it was given. */
  ghost predicate FullRows(answers: Answers) {
    forall n, s :: |answers(n, s)| >= |s.data|
  }

  // ---------------------------------------------------------------- resolving references

  /** The row a position stands for: the result once there is one, the operation's own data before. */
  function RowAt(ops: seq<Op>, results: seq<Option<seq<Cell>>>, idx: nat): seq<Cell>
    requires idx < |ops|
  {
    if idx < |results| && results[idx].Some? then results[idx].value else ops[idx].data
  }

  /** The value of a column. A column that is a reference itself is not resolved yet; neither is an empty column of an
      operation that has no result. */
  function Resolve(ops: seq<Op>, results: seq<Option<seq<Cell>>>, lookup: Lookup, cell: Cell): Option<Safe> {
    match cell
    case Plain(value) => Some(value)
    case Far(route) => if lookup(route).Some? && lookup(route).value != Null then lookup(route) else None
    case Pos(col, idx) =>
      if idx < |ops| && col < |RowAt(ops, results, idx)| && RowAt(ops, results, idx)[col].Plain?
         && (RowAt(ops, results, idx)[col].value != Null || (idx < |results| && results[idx].Some?))
      then Some(RowAt(ops, results, idx)[col].value)
      else None
  }

  function ResolveAll(ops: seq<Op>, results: seq<Option<seq<Cell>>>, lookup: Lookup, data: seq<Cell>): (r: Option<seq<Safe>>)
    ensures r.Some? ==> |r.value| == |data|
  {
    if data == [] then Some([])
    else
      var n := |data| - 1;
      var before, last := ResolveAll(ops, results, lookup, data[..n]), Resolve(ops, results, lookup, data[n]);
      if before.None? || last.None? then None else Some(before.value + [last.value])
  }

  lemma {:induction false} ResolveEach(ops: seq<Op>, results: seq<Option<seq<Cell>>>, lookup: Lookup, data: seq<Cell>)
    ensures ResolveAll(ops, results, lookup, data).Some? <==> forall c :: 0 <= c < |data| ==> Resolve(ops, results, lookup, data[c]).Some?
    ensures ResolveAll(ops, results, lookup, data).Some? ==>
              forall c :: 0 <= c < |data| ==> Resolve(ops, results, lookup, data[c]) == Some(ResolveAll(ops, results, lookup, data).value[c])
    decreases |data|
  {
    if data != [] {
      var n := |data| - 1;
      ResolveEach(ops, results, lookup, data[..n]);
      forall c | 0 <= c < n ensures data[..n][c] == data[c] {
      }
      assert (forall c :: 0 <= c < |data| ==> Resolve(ops, results, lookup, data[c]).Some?) <==>
             (forall c :: 0 <= c < n ==> Resolve(ops, results, lookup, data[..n][c]).Some?) && Resolve(ops, results, lookup, data[n]).Some?;
    }
  }

  // ---------------------------------------------------------------- one operation's turn

  function Cells(row: seq<Safe>): (r: seq<Cell>)
    ensures |r| == |row| && forall c :: 0 <= c < |row| ==> r[c] == Plain(row[c])
  {
    seq(|row|, c requires 0 <= c < |row| => Plain(row[c]))
  }

  /** A pending operation's turn. */
  function Turn(ops: seq<Op>, lookup: Lookup, answers: Answers, s: State, i: nat): State
    requires |s.results| == |ops| && i < |ops|
  {
    var op := ops[i];
    if op.kind.DoneOp? then s.(results := s.results[i := Some(op.data)], unresolved := s.unresolved - {i})
    else
      var data := ResolveAll(ops, s.results, lookup, op.data);
      if data.None? then s
      else if Submits(op.kind) then
        var sub := Submission(i, op.kind, op.target, data.value);
        State(s.results[i := Some(Cells(answers(|s.log|, sub)))], s.unresolved - {i}, s.log + [sub], s.lookups + [lookup])
      else s.(unresolved := s.unresolved - {i})
  }

  /** The turns of all operations below `n` that were pending, in order. */
  function Round(ops: seq<Op>, lookup: Lookup, answers: Answers, s: State, pending: set<nat>, n: nat): (r: State)
    requires |s.results| == |ops| && n <= |ops|
    ensures |r.results| == |ops|
  {
    if n == 0 then s
    else
      var before := Round(ops, lookup, answers, s, pending, n - 1);
      if n - 1 in pending then Turn(ops, lookup, answers, before, n - 1) else before
  }

  // ---------------------------------------------------------------- the invariant

  ghost predicate Logged(log: seq<Submission>, i: nat) {
    exists j :: 0 <= j < |log| && log[j].idx == i
  }

  /** An operation below `n`: done or pending, submitted exactly if it is done and of a kind that is submitted. */
  ghost predicate OpOk(ops: seq<Op>, s: State, i: nat)
    requires |s.results| <= |ops|
  {
    i < |s.results| ==>
      && (i in s.unresolved || ops[i].kind.UnknownOp? ==> s.results[i].None?)
      && (i !in s.unresolved && !ops[i].kind.UnknownOp? ==> s.results[i].Some? && |s.results[i].value| >= |ops[i].data|)
      && (i !in s.unresolved && ops[i].kind.DoneOp? ==> s.results[i] == Some(ops[i].data))
      && (i !in s.unresolved && Submits(ops[i].kind) ==> forall c :: 0 <= c < |s.results[i].value| ==> s.results[i].value[c].Plain?)
      && (Logged(s.log, i) <==> i !in s.unresolved && Submits(ops[i].kind))
  }

  ghost predicate OnceEach(log: seq<Submission>) {
    forall j, k :: 0 <= j < k < |log| ==> log[j].idx != log[k].idx
  }

  /** Where the value submitted for a column comes from. A plain column is submitted as it is, a reference to another file as
      what could be looked up. A reference to an operation gives the table engine's answer if that operation had been
      submitted before, otherwise the operation's own plain value; an empty one only if the operation was done already. */
  ghost predicate FromSource(ops: seq<Op>, s: State, j: nat, cell: Cell, value: Safe)
    requires j < |s.log| == |s.lookups| && |s.results| <= |ops|
  {
    match cell
    case Plain(v) => value == v
    case Far(route) => value != Null && s.lookups[j](route) == Some(value)
    case Pos(col, idx) =>
      && idx < |s.results|
      && if Logged(s.log[..j], idx) then s.results[idx].Some? && col < |s.results[idx].value| && s.results[idx].value[col] == Plain(value)
         else col < |ops[idx].data| && ops[idx].data[col] == Plain(value) && (value == Null ==> ops[idx].kind.DoneOp? && s.results[idx].Some?)
  }

  /** A submission carries the operation's own target and kind, and for every column the value its source has; the
      operation's result is the engine's answer. */
  ghost predicate SubmissionOk(ops: seq<Op>, answers: Answers, s: State, j: nat)
    requires j < |s.log| == |s.lookups| && |s.results| <= |ops|
  {
    var sub := s.log[j];
    && sub.idx < |s.results| && sub.kind == ops[sub.idx].kind && sub.target == ops[sub.idx].target
    && s.results[sub.idx] == Some(Cells(answers(j, sub)))
    && |sub.data| == |ops[sub.idx].data|
    && forall c :: 0 <= c < |sub.data| ==> FromSource(ops, s, j, ops[sub.idx].data[c], sub.data[c])
  }

  ghost predicate LogOk(ops: seq<Op>, answers: Answers, s: State)
    requires |s.results| <= |ops|
  {
    OnceEach(s.log) && |s.lookups| == |s.log| && forall j :: 0 <= j < |s.log| ==> SubmissionOk(ops, answers, s, j)
  }

  ghost predicate StateOk(ops: seq<Op>, answers: Answers, s: State) {
    && |s.results| <= |ops| && LogOk(ops, answers, s)
    && (forall i :: i in s.unresolved ==> i < |s.results|)
    && forall i :: 0 <= i < |s.results| ==> OpOk(ops, s, i)
  }

  /** Earlier submissions stay explained: results are write-once. */
  lemma {:induction false} StillExplained(ops: seq<Op>, answers: Answers, s: State, s': State, j: nat)
    requires StateOk(ops, answers, s) && j < |s.log| && |s.results| <= |s'.results| <= |ops| && s.log <= s'.log && s.lookups <= s'.lookups
    requires |s'.lookups| == |s'.log|
    requires forall i :: 0 <= i < |s.results| && s.results[i].Some? ==> s'.results[i] == s.results[i]
    ensures SubmissionOk(ops, answers, s', j)
  {
    assert SubmissionOk(ops, answers, s, j);
    assert s'.log[..j] == s.log[..j] && s'.lookups[j] == s.lookups[j];
    var sub := s.log[j];
    forall c | 0 <= c < |sub.data| ensures FromSource(ops, s', j, ops[sub.idx].data[c], sub.data[c]) {
      assert FromSource(ops, s, j, ops[sub.idx].data[c], sub.data[c]);
    }
  }

  lemma {:induction false} TurnOk(ops: seq<Op>, lookup: Lookup, answers: Answers, s: State, i: nat)
    requires StateOk(ops, answers, s) && |s.results| == |ops| && i in s.unresolved && FullRows(answers)
    ensures StateOk(ops, answers, Turn(ops, lookup, answers, s, i))
  {
    var s' := Turn(ops, lookup, answers, s, i);
    var data := ResolveAll(ops, s.results, lookup, ops[i].data);
    assert OpOk(ops, s, i);
    if !ops[i].kind.DoneOp? && data.Some? && Submits(ops[i].kind) {
      SubmitOk(ops, lookup, answers, s, i, data.value);
    } else {
      hide SubmissionOk;
      forall j | 0 <= j < |s'.log| ensures SubmissionOk(ops, answers, s', j) {
        StillExplained(ops, answers, s, s', j);
      }
      forall k | 0 <= k < |s'.results| ensures OpOk(ops, s', k) {
        assert OpOk(ops, s, k);
      }
    }
  }

  /** An operation that is done has a result if its kind is known. */
  lemma {:induction false} HasResult(ops: seq<Op>, answers: Answers, s: State, idx: nat)
    requires StateOk(ops, answers, s) && |s.results| == |ops| && idx < |ops|
    ensures Logged(s.log, idx) ==> s.results[idx].Some?
    ensures s.results[idx].Some? && !Logged(s.log, idx) ==> ops[idx].kind.DoneOp? && s.results[idx].value == ops[idx].data
  {
    assert OpOk(ops, s, idx);
  }

  /** What a column resolved to is what its source has. */
  lemma {:induction false} ResolvedFrom(ops: seq<Op>, lookup: Lookup, answers: Answers, s: State, cell: Cell, s': State)
    requires StateOk(ops, answers, s) && |s.results| == |ops| && Resolve(ops, s.results, lookup, cell).Some?
    requires |s'.results| == |ops| && |s'.log| == |s'.lookups| == |s.log| + 1 && s'.log[..|s.log|] == s.log && s'.lookups[|s.log|] == lookup
    requires forall k :: 0 <= k < |ops| && s.results[k].Some? ==> s'.results[k] == s.results[k]
    ensures FromSource(ops, s', |s.log|, cell, Resolve(ops, s.results, lookup, cell).value)
  {
    if cell.Pos? {
      HasResult(ops, answers, s, cell.idx);
      assert OpOk(ops, s, cell.idx);
    }
  }

  lemma {:induction false} SubmitOk(ops: seq<Op>, lookup: Lookup, answers: Answers, s: State, i: nat, data: seq<Safe>)
    requires StateOk(ops, answers, s) && |s.results| == |ops| && i in s.unresolved && Submits(ops[i].kind) && FullRows(answers)
    requires ResolveAll(ops, s.results, lookup, ops[i].data) == Some(data)
    ensures var sub := Submission(i, ops[i].kind, ops[i].target, data);
            StateOk(ops, answers, State(s.results[i := Some(Cells(answers(|s.log|, sub)))], s.unresolved - {i}, s.log + [sub], s.lookups + [lookup]))
  {
    var sub := Submission(i, ops[i].kind, ops[i].target, data);
    var row := Cells(answers(|s.log|, sub));
    var s' := State(s.results[i := Some(row)], s.unresolved - {i}, s.log + [sub], s.lookups + [lookup]);
    assert OpOk(ops, s, i);
    assert |answers(|s.log|, sub)| >= |sub.data|;
    ResolveEach(ops, s.results, lookup, ops[i].data);
    forall c | 0 <= c < |data| ensures FromSource(ops, s', |s.log|, ops[i].data[c], data[c]) {
      assert s'.log[..|s.log|] == s.log;
      ResolvedFrom(ops, lookup, answers, s, ops[i].data[c], s');
    }
    hide FromSource, Resolve, ResolveAll;
    SubmissionsStay(ops, answers, s, s');
    assert SubmissionOk(ops, answers, s', |s.log|);
    hide SubmissionOk;
    NotSubmittedYet(ops, answers, s, i);
    forall k | 0 <= k < |s'.results| ensures OpOk(ops, s', k) {
      assert OpOk(ops, s, k);
      LoggedMore(s.log, sub, k);
    }
  }

  lemma {:induction false} SubmissionsStay(ops: seq<Op>, answers: Answers, s: State, s': State)
    requires StateOk(ops, answers, s) && |s.results| <= |s'.results| <= |ops| && s.log <= s'.log && s.lookups <= s'.lookups && |s'.lookups| == |s'.log|
    requires forall i :: 0 <= i < |s.results| && s.results[i].Some? ==> s'.results[i] == s.results[i]
    ensures forall j :: 0 <= j < |s.log| ==> SubmissionOk(ops, answers, s', j)
  {
    hide SubmissionOk;
    forall j | 0 <= j < |s.log| ensures SubmissionOk(ops, answers, s', j) {
      StillExplained(ops, answers, s, s', j);
    }
  }

  lemma {:induction false} NotSubmittedYet(ops: seq<Op>, answers: Answers, s: State, i: nat)
    requires StateOk(ops, answers, s) && i in s.unresolved
    ensures forall j :: 0 <= j < |s.log| ==> s.log[j].idx != i
  {
    assert OpOk(ops, s, i);
    forall j | 0 <= j < |s.log| ensures s.log[j].idx != i {
      assert Logged(s.log, s.log[j].idx);
    }
  }

  lemma {:induction false} LoggedMore(log: seq<Submission>, sub: Submission, k: nat)
    ensures Logged(log + [sub], k) <==> Logged(log, k) || sub.idx == k
  {
    var log' := log + [sub];
    if Logged(log, k) {
      var j :| 0 <= j < |log| && log[j].idx == k;
      assert log'[j].idx == k;
    }
    assert log'[|log|] == sub;
  }

  /** What is done stays as it is: a result never changes, and the log only grows. */
  ghost predicate Kept(s: State, s': State) {
    && |s.results| <= |s'.results| && s.log <= s'.log && s.lookups <= s'.lookups
    && forall i :: 0 <= i < |s.results| && i !in s.unresolved ==> i !in s'.unresolved && s'.results[i] == s.results[i]
  }

  lemma {:induction false} RoundOk(ops: seq<Op>, lookup: Lookup, answers: Answers, s: State, n: nat)
    requires StateOk(ops, answers, s) && |s.results| == |ops| && n <= |ops| && FullRows(answers)
    ensures var r := Round(ops, lookup, answers, s, s.unresolved, n);
            && StateOk(ops, answers, r) && Kept(s, r)
            && forall i :: n <= i < |ops| ==> (i in r.unresolved <==> i in s.unresolved) && r.results[i] == s.results[i]
    decreases n
  {
    if n > 0 {
      RoundOk(ops, lookup, answers, s, n - 1);
      var before := Round(ops, lookup, answers, s, s.unresolved, n - 1);
      if n - 1 in s.unresolved {
        TurnOk(ops, lookup, answers, before, n - 1);
      }
    }
  }

  /** Submissions of a call are made with what can be looked up then. */
  lemma {:induction false} RoundLookups(ops: seq<Op>, lookup: Lookup, answers: Answers, s: State, pending: set<nat>, n: nat)
    requires |s.results| == |ops| && n <= |ops| && |s.lookups| == |s.log|
    ensures var r := Round(ops, lookup, answers, s, pending, n);
            |r.lookups| == |r.log| && |s.log| <= |r.log| && forall j :: |s.log| <= j < |r.log| ==> r.lookups[j] == lookup
    decreases n
  {
    if n > 0 {
      RoundLookups(ops, lookup, answers, s, pending, n - 1);
    }
  }

  /** Operations queued since the last call are pending, without a result. */
  function Extended(ops: seq<Op>, s: State): State
    requires |s.results| <= |ops|
  {
    State(s.results + seq(|ops| - |s.results|, _ => None), s.unresolved + (set i: nat | |s.results| <= i < |ops| && i !in s.unresolved), s.log, s.lookups)
  }

  lemma {:induction false} ExtendOk(ops: seq<Op>, answers: Answers, s: State)
    requires StateOk(ops, answers, s)
    ensures StateOk(ops, answers, Extended(ops, s)) && |Extended(ops, s).results| == |ops| && Kept(s, Extended(ops, s))
  {
    var s' := Extended(ops, s);
    SubmissionsStay(ops, answers, s, s');
    hide SubmissionOk;
    forall k | 0 <= k < |s'.results| ensures OpOk(ops, s', k) {
      if k < |s.results| {
        assert OpOk(ops, s, k);
      } else {
        NotLogged(ops, answers, s, k);
      }
    }
  }

  lemma {:induction false} NotLogged(ops: seq<Op>, answers: Answers, s: State, k: nat)
    requires |s.results| <= |ops| && LogOk(ops, answers, s) && |s.results| <= k
    ensures !Logged(s.log, k)
  {
    forall j | 0 <= j < |s.log| ensures s.log[j].idx < |s.results| {
      assert SubmissionOk(ops, answers, s, j);
    }
  }

  lemma {:induction false} MoreOps(ops: seq<Op>, answers: Answers, s: State, op: Op)
    requires StateOk(ops, answers, s)
    ensures StateOk(ops + [op], answers, s)
  {
    forall j | 0 <= j < |s.log| ensures SubmissionOk(ops + [op], answers, s, j) {
      assert SubmissionOk(ops, answers, s, j);
      var sub := s.log[j];
      forall c | 0 <= c < |sub.data| ensures FromSource(ops + [op], s, j, (ops + [op])[sub.idx].data[c], sub.data[c]) {
        assert FromSource(ops, s, j, ops[sub.idx].data[c], sub.data[c]);
      }
    }
    hide SubmissionOk;
    forall k | 0 <= k < |s.results| ensures OpOk(ops + [op], s, k) {
      assert OpOk(ops, s, k);
    }
  }

  lemma {:induction false} NothingPending(ops: seq<Op>, lookup: Lookup, answers: Answers, s: State, n: nat)
    requires |s.results| == |ops| && n <= |ops|
    ensures Extended(ops, s) == s && Round(ops, lookup, answers, s, {}, n) == s
    decreases n
  {
    if n > 0 {
      NothingPending(ops, lookup, answers, s, n - 1);
    }
  }

  lemma {:induction false} KeptTwice(s: State, s': State, s'': State)
    requires Kept(s, s') && Kept(s', s'')
    ensures Kept(s, s'')
  {
  }

  // ---------------------------------------------------------------- what repeated execution guarantees

  /** Everything an operation refers to comes earlier in the file or can be looked up. */
  predicate Answerable(ops: seq<Op>, lookup: Lookup, i: nat)
    requires i < |ops|
  {
    && !ops[i].kind.UnknownOp?
    && (ops[i].kind.DoneOp? ==> forall c :: 0 <= c < |ops[i].data| ==> ops[i].data[c].Plain?)
    && forall c :: 0 <= c < |ops[i].data| ==> CellAnswerable(lookup, i, ops[i].data[c])
  }

  predicate CellAnswerable(lookup: Lookup, i: nat, cell: Cell) {
    match cell
    case Plain(_) => true
    case Pos(_, idx) => idx < i
    case Far(route) => lookup(route).Some? && lookup(route).value != Null
  }

  /** Once every reference is to an earlier operation or can be looked up, one call finishes. */
  lemma {:induction false} OneCallFinishes(ops: seq<Op>, lookup: Lookup, answers: Answers, s: State, n: nat)
    requires WellFormed(ops) && StateOk(ops, answers, s) && |s.results| == |ops| && FullRows(answers) && n <= |ops|
    requires forall i :: 0 <= i < |ops| ==> Answerable(ops, lookup, i)
    ensures forall i :: 0 <= i < n ==> i !in Round(ops, lookup, answers, s, s.unresolved, n).unresolved
    decreases n
  {
    if n > 0 {
      var i := n - 1;
      OneCallFinishes(ops, lookup, answers, s, i);
      RoundOk(ops, lookup, answers, s, i);
      var before := Round(ops, lookup, answers, s, s.unresolved, i);
      assert Answerable(ops, lookup, i);
      if i in s.unresolved && !ops[i].kind.DoneOp? {
        forall c | 0 <= c < |ops[i].data| ensures Resolve(ops, before.results, lookup, ops[i].data[c]).Some? {
          assert CellAnswerable(lookup, i, ops[i].data[c]);
          if ops[i].data[c].Pos? {
            EarlierResolves(ops, lookup, answers, before, ops[i].data[c].col, ops[i].data[c].idx);
          }
        }
        ResolveEach(ops, before.results, lookup, ops[i].data);
      }
    }
  }

  lemma {:induction false} EarlierResolves(ops: seq<Op>, lookup: Lookup, answers: Answers, s: State, col: nat, idx: nat)
    requires StateOk(ops, answers, s) && |s.results| == |ops| && idx < |ops| && idx !in s.unresolved && col < |ops[idx].data|
    requires Answerable(ops, lookup, idx)
    ensures Resolve(ops, s.results, lookup, Pos(col, idx)).Some?
  {
    assert OpOk(ops, s, idx);
  }

  /** When everything is done, each operation that is submitted was submitted exactly once, and nothing else was. */
  lemma {:induction false} SubmittedOnce(ops: seq<Op>, answers: Answers, s: State, i: nat)
    requires StateOk(ops, answers, s) && |s.results| == |ops| && s.unresolved == {} && i < |ops|
    ensures Submits(ops[i].kind) <==> exists j :: 0 <= j < |s.log| && s.log[j].idx == i
    ensures forall j, k :: 0 <= j < |s.log| && 0 <= k < |s.log| && s.log[j].idx == i && s.log[k].idx == i ==> j == k
  {
    assert OpOk(ops, s, i);
  }

  /** A column that has no value yet: nothing, or an empty value, can be looked up; or the operation referred to holds a
      reference itself in that column, or nothing while it has no result. */
  predicate Blocked(ops: seq<Op>, results: seq<Option<seq<Cell>>>, lookup: Lookup, cell: Cell)
    requires |results| == |ops|
  {
    match cell
    case Plain(_) => false
    case Far(route) => lookup(route) == None || lookup(route) == Some(Null)
    case Pos(col, idx) =>
      || idx >= |ops|
      || (results[idx].Some? && (col >= |results[idx].value| || !results[idx].value[col].Plain?))
      || (results[idx].None? && (col >= |ops[idx].data| || !ops[idx].data[col].Plain? || ops[idx].data[col] == Plain(Null)))
  }

  lemma {:induction false} BlockedIs(ops: seq<Op>, results: seq<Option<seq<Cell>>>, lookup: Lookup, cell: Cell)
    requires |results| == |ops|
    ensures Resolve(ops, results, lookup, cell).None? <==> Blocked(ops, results, lookup, cell)
  {
  }

  /** An operation is left pending exactly if one of its columns has no value at its turn. */
  lemma {:induction false} PendingWasBlocked(ops: seq<Op>, lookup: Lookup, answers: Answers, s: State, i: nat)
    requires StateOk(ops, answers, s) && |s.results| == |ops| && FullRows(answers) && i < |ops| && i in s.unresolved
    ensures var before := Round(ops, lookup, answers, s, s.unresolved, i);
            i in Round(ops, lookup, answers, s, s.unresolved, i + 1).unresolved <==>
            !ops[i].kind.DoneOp? && exists c :: 0 <= c < |ops[i].data| && Blocked(ops, before.results, lookup, ops[i].data[c])
  {
    RoundOk(ops, lookup, answers, s, i);
    var before := Round(ops, lookup, answers, s, s.unresolved, i);
    ResolveEach(ops, before.results, lookup, ops[i].data);
    forall c | 0 <= c < |ops[i].data|
      ensures Resolve(ops, before.results, lookup, ops[i].data[c]).None? <==> Blocked(ops, before.results, lookup, ops[i].data[c])
    {
      BlockedIs(ops, before.results, lookup, ops[i].data[c]);
    }
  }

  /** What every submission carries, over any number of calls: a plain column as it is; for a reference to another file what could
      be looked up; for a reference to an operation submitted before the engine's answer, otherwise its plain value. */
  lemma {:induction false} SubmittedData(ops: seq<Op>, answers: Answers, s: State, j: nat, c: nat)
    requires StateOk(ops, answers, s) && j < |s.log| && c < |s.log[j].data|
    ensures |s.lookups| == |s.log| && s.log[j].idx < |s.results| && |s.log[j].data| == |ops[s.log[j].idx].data|
    ensures s.log[j].target == ops[s.log[j].idx].target && s.log[j].kind == ops[s.log[j].idx].kind
    ensures var cell, value := ops[s.log[j].idx].data[c], s.log[j].data[c];
            && (cell.Plain? ==> value == cell.value)
            && (cell.Far? ==> value != Null && s.lookups[j](cell.route) == Some(value))
            && (cell.Pos? ==> cell.idx < |s.results|)
            && (cell.Pos? && (exists k :: 0 <= k < j && s.log[k].idx == cell.idx) ==>
                  forall k :: 0 <= k < j && s.log[k].idx == cell.idx ==>
                    cell.col < |answers(k, s.log[k])| && value == answers(k, s.log[k])[cell.col])
            && (cell.Pos? && !(exists k :: 0 <= k < j && s.log[k].idx == cell.idx) ==>
                  cell.col < |ops[cell.idx].data| && ops[cell.idx].data[cell.col] == Plain(value)
                  && (value == Null ==> ops[cell.idx].kind.DoneOp? && s.results[cell.idx].Some?))
  {
    assert SubmissionOk(ops, answers, s, j);
    var cell, value := ops[s.log[j].idx].data[c], s.log[j].data[c];
    assert FromSource(ops, s, j, cell, value);
    if cell.Pos? {
      assert Logged(s.log[..j], cell.idx) <==> exists k :: 0 <= k < j && s.log[k].idx == cell.idx by {
        EarlierLogged(s.log, j, cell.idx);
      }
      hide FromSource;
      forall k | 0 <= k < j && s.log[k].idx == cell.idx ensures s.results[cell.idx] == Some(Cells(answers(k, s.log[k]))) {
        assert SubmissionOk(ops, answers, s, k);
      }
    }
  }

  lemma {:induction false} EarlierLogged(log: seq<Submission>, j: nat, idx: nat)
    requires j <= |log|
    ensures Logged(log[..j], idx) <==> exists k :: 0 <= k < j && log[k].idx == idx
  {
    if k :| 0 <= k < j && log[k].idx == idx {
      assert log[..j][k].idx == idx;
    }
  }

  // ---------------------------------------------------------------- the ChangeSet

  class ChangeSet {
    const answers: Answers
    var ops: seq<Op>
    var results: seq<Option<seq<Cell>>>
    var unresolved: set<nat>
    var processed: bool
    /** What the table engine has been given so far. */
    var log: seq<Submission>
    ghost var lookups: seq<Lookup>

    ghost function St(): State
      reads this
    {
      State(results, unresolved, log, lookups)
    }

    ghost predicate Valid()
      reads this
    {
      FullRows(answers) && StateOk(ops, answers, St())
    }

    constructor (answers: Answers)
      requires FullRows(answers)
      ensures Valid() && ops == [] && results == [] && log == [] && this.answers == answers
    {
      this.answers, ops, results, unresolved, processed, log, lookups := answers, [], [], {}, false, [], [];
    }

    /** Queue an operation. */
    method Store(op: Op)
      requires Valid()
      modifies this`ops
      ensures Valid() && ops == old(ops) + [op]
    {
      MoreOps(ops, answers, St(), op);
      ops := ops + [op];
    }

    /** Hand an operation to the table engine. */
    method Submit(i: nat, op: Op, data: seq<Safe>, ghost lookup: Lookup) returns (row: seq<Safe>)
      modifies this`log, this`lookups
      ensures lookups == old(lookups) + [lookup]
      ensures log == old(log) + [Submission(i, op.kind, op.target, data)] && row == answers(|old(log)|, Submission(i, op.kind, op.target, data))
    {
      var sub := Submission(i, op.kind, op.target, data);
      row := answers(|log|, sub);
      log, lookups := log + [sub], lookups + [lookup];
    }

    /** Execute what can be executed: every pending operation gets one turn, in order. */
    method Execute(lookup: Lookup) returns (ok: bool)
      requires Valid()
      modifies this`results, this`unresolved, this`processed, this`log, this`lookups
      ensures Valid() && |results| == |ops|
      ensures St() == old(Round(ops, lookup, answers, Extended(ops, St()), Extended(ops, St()).unresolved, |ops|))
      ensures Kept(old(St()), St())
      ensures forall j :: |old(log)| <= j < |log| ==> lookups[j] == lookup
      ensures ok <==> unresolved == {}
    {
      ghost var start := St();
      if processed && |results| == |ops| && unresolved == {} {
        NothingPending(ops, lookup, answers, St(), |ops|);
        return true;
      }
      ExtendOk(ops, answers, St());
      ghost var s := Extended(ops, St());
      unresolved := unresolved + (set i: nat | |results| <= i < |ops| && i !in unresolved);
      results := results + seq(|ops| - |results|, _ => None);
      assert St() == s;
      RoundOk(ops, lookup, answers, s, |ops|);
      KeptTwice(start, s, Round(ops, lookup, answers, s, s.unresolved, |ops|));
      RoundLookups(ops, lookup, answers, s, s.unresolved, |ops|);
      Rounds(lookup);
      ok := unresolved == {};
      processed := processed || ok;
    }

    method Rounds(lookup: Lookup)
      requires |results| == |ops|
      modifies this`results, this`unresolved, this`log, this`lookups
      ensures |results| == |ops| && St() == old(Round(ops, lookup, answers, St(), unresolved, |ops|))
    {
      var pending := unresolved;
      ghost var s := St();
      for i := 0 to |ops|
        invariant |results| == |ops| && St() == Round(ops, lookup, answers, s, pending, i)
      {
        if i in pending {
          var op := ops[i];
          if op.kind.DoneOp? {
            results, unresolved := results[i := Some(op.data)], unresolved - {i};
          } else {
            var data := ResolveAll(ops, results, lookup, op.data);
            if data.Some? {
              if Submits(op.kind) {
                var row := Submit(i, op, data.value, lookup);
                results := results[i := Some(Cells(row))];
              }
              unresolved := unresolved - {i};
            }
          }
        }
      }
    }
  }
}
