/** Partitioning source files into batches and epochs (main.py, `partition_source_epochs`). */
module SourceEpochs {

  /** A changed file: its bytes, whether its language is parsed into a full tree, and its two leading directories. */
  datatype File = File(id: int, size: nat, ast: bool, dir: int)

  datatype Limits = Limits(normal: nat, heavy: nat, maxBytes: nat, threshold: nat)
  {
    predicate Valid() {
      1 <= heavy <= normal
    }
  }

  predicate IsHeavy(f: File, lim: Limits) {
    f.size >= lim.threshold && f.ast
  }

  predicate HasHeavy(files: seq<File>, lim: Limits) {
    exists i :: 0 <= i < |files| && IsHeavy(files[i], lim)
  }

  function Bytes(files: seq<File>): nat {
    if files == [] then 0 else Bytes(files[..|files|-1]) + files[|files|-1].size
  }

  function Flat<T>(parts: seq<seq<T>>): seq<T> {
    if parts == [] then [] else Flat(parts[..|parts|-1]) + parts[|parts|-1]
  }

  // ---------------------------------------------------------------- batches

  /** Within both budgets: a batch holding a heavy file is short, and only a single file may exceed the byte budget. */
  predicate BatchOk(files: seq<File>, lim: Limits) {
    && files != [] && |files| <= lim.normal
    && (HasHeavy(files, lim) ==> |files| <= lim.heavy)
    && (|files| > 1 ==> Bytes(files) <= lim.maxBytes)
  }

  /** The file does not fit into the batch. */
  predicate TooMuch(files: seq<File>, f: File, lim: Limits) {
    || |files| >= (if HasHeavy(files, lim) || IsHeavy(f, lim) then lim.heavy else lim.normal)
    || Bytes(files) + f.size > lim.maxBytes
  }

  /** The files in order; every batch fits, and none could have taken the next file. */
  ghost predicate BatchesOk(files: seq<File>, batches: seq<seq<File>>, lim: Limits) {
    && Flat(batches) == files
    && (forall b :: 0 <= b < |batches| ==> BatchOk(batches[b], lim))
    && forall b :: 0 <= b < |batches| - 1 && batches[b + 1] != [] ==> TooMuch(batches[b], batches[b + 1][0], lim)
  }

  lemma {:induction false} OneMore(current: seq<File>, f: File, lim: Limits)
    requires lim.Valid() && (current == [] || BatchOk(current, lim)) && (current == [] || !TooMuch(current, f, lim))
    ensures BatchOk(current + [f], lim) && Bytes(current + [f]) == Bytes(current) + f.size
    ensures HasHeavy(current + [f], lim) <==> HasHeavy(current, lim) || IsHeavy(f, lim)
  {
    var more := current + [f];
    assert more[..|more|-1] == current;
    if HasHeavy(current, lim) {
      var i :| 0 <= i < |current| && IsHeavy(current[i], lim);
      assert IsHeavy(more[i], lim);
    }
    if IsHeavy(f, lim) {
      assert IsHeavy(more[|current|], lim);
    }
  }

  /** The batches closed so far and the one being filled. */
  ghost predicate Filling(files: seq<File>, batches: seq<seq<File>>, current: seq<File>, lim: Limits) {
    && Flat(batches) + current == files
    && (forall b :: 0 <= b < |batches| ==> BatchOk(batches[b], lim))
    && (forall b :: 0 <= b < |batches| - 1 && batches[b + 1] != [] ==> TooMuch(batches[b], batches[b + 1][0], lim))
    && (current == [] || BatchOk(current, lim))
    && (batches != [] && current != [] ==> TooMuch(batches[|batches|-1], current[0], lim))
    && (current == [] ==> batches == [])
  }

  lemma {:induction false} Grow(files: seq<File>, batches: seq<seq<File>>, current: seq<File>, f: File, lim: Limits)
    requires lim.Valid() && Filling(files, batches, current, lim) && (current == [] || !TooMuch(current, f, lim))
    ensures Filling(files + [f], batches, current + [f], lim)
  {
    OneMore(current, f, lim);
    assert Flat(batches) + (current + [f]) == (Flat(batches) + current) + [f];
  }

  lemma {:induction false} Close(files: seq<File>, batches: seq<seq<File>>, current: seq<File>, f: File, lim: Limits)
    requires lim.Valid() && Filling(files, batches, current, lim) && current != [] && TooMuch(current, f, lim)
    ensures Filling(files + [f], batches + [current], [f], lim)
  {
    OneMore([], f, lim);
    assert [] + [f] == [f];
    assert (batches + [current])[..|batches|] == batches;
    assert Flat(batches + [current]) == Flat(batches) + current;
  }

  lemma {:induction false} NothingYet(lim: Limits)
    ensures Filling([], [], [], lim) && Bytes([]) == 0 && !HasHeavy([], lim)
  {
  }

  lemma {:induction false} Fits(files: seq<File>, batches: seq<seq<File>>, current: seq<File>, lim: Limits)
    requires Filling(files, batches, current, lim)
    ensures current == [] || BatchOk(current, lim)
  {
  }

  lemma {:induction false} AllFilled(files: seq<File>, batches: seq<seq<File>>, current: seq<File>, lim: Limits)
    requires Filling(files, batches, current, lim)
    ensures BatchesOk(files, if current == [] then batches else batches + [current], lim)
  {
    if current != [] {
      assert (batches + [current])[..|batches|] == batches;
    }
  }

  lemma {:induction false} Alone(f: File, lim: Limits)
    requires lim.Valid()
    ensures Bytes([f]) == f.size && (HasHeavy([f], lim) <==> IsHeavy(f, lim))
  {
    OneMore([], f, lim);
    assert [] + [f] == [f];
  }

  predicate AnyLarge(files: seq<File>, lim: Limits) {
    exists i :: 0 <= i < |files| && files[i].size >= lim.threshold && files[i].ast
  }

  /** Batches with a large source are short, and a batch is closed early only for bytes or for a large source. */
  ghost predicate ShortIfLarge(batches: seq<seq<File>>, lim: Limits) {
    && (forall b :: 0 <= b < |batches| && AnyLarge(batches[b], lim) ==> |batches[b]| <= lim.heavy)
    && forall b :: 0 <= b < |batches| - 1 && batches[b + 1] != [] ==>
         || Bytes(batches[b]) + batches[b + 1][0].size > lim.maxBytes
         || |batches[b]| >= if AnyLarge(batches[b] + [batches[b + 1][0]], lim) then lim.heavy else lim.normal
  }

  lemma {:induction false} BatchesShort(files: seq<File>, batches: seq<seq<File>>, lim: Limits)
    requires BatchesOk(files, batches, lim)
    ensures ShortIfLarge(batches, lim)
  {
    hide Flat, Bytes;
    forall b | 0 <= b < |batches| - 1 && batches[b + 1] != []
      ensures AnyLarge(batches[b] + [batches[b + 1][0]], lim) <==> HasHeavy(batches[b], lim) || IsHeavy(batches[b + 1][0], lim)
    {
      LargeMore(batches[b], batches[b + 1][0], lim);
    }
    forall b | 0 <= b < |batches| && AnyLarge(batches[b], lim) ensures HasHeavy(batches[b], lim) {
      var i :| 0 <= i < |batches[b]| && batches[b][i].size >= lim.threshold && batches[b][i].ast;
      assert IsHeavy(batches[b][i], lim);
    }
  }

  lemma {:induction false} LargeMore(files: seq<File>, f: File, lim: Limits)
    ensures AnyLarge(files + [f], lim) <==> HasHeavy(files, lim) || IsHeavy(f, lim)
  {
    var more := files + [f];
    if i :| 0 <= i < |more| && more[i].size >= lim.threshold && more[i].ast {
      assert i < |files| ==> IsHeavy(files[i], lim);
    }
    if i :| 0 <= i < |files| && IsHeavy(files[i], lim) {
      assert more[i] == files[i];
    }
    assert more[|files|] == f;
  }

  /** Batches bounded by file count and by bytes. */
  method MakeBatches(files: seq<File>, lim: Limits) returns (batches: seq<seq<File>>)
    requires lim.Valid()
    ensures BatchesOk(files, batches, lim) && ShortIfLarge(batches, lim)
  {
    hide ShortIfLarge, Filling, BatchesOk, BatchOk, HasHeavy, Bytes, IsHeavy, Flat;
    batches := [];
    var current: seq<File>, bytes, hasHeavy := [], 0, false;
    NothingYet(lim);
    assert files[..0] == [];
    for i := 0 to |files|
      invariant Filling(files[..i], batches, current, lim) && bytes == Bytes(current) && hasHeavy == HasHeavy(current, lim)
    {
      var f := files[i];
      assert files[..i + 1] == files[..i] + [f];
      var heavy := IsHeavy(f, lim);
      var limit := if hasHeavy || heavy then lim.heavy else lim.normal;
      if current != [] && (|current| >= limit || bytes + f.size > lim.maxBytes) {
        Close(files[..i], batches, current, f, lim);
        Alone(f, lim);
        batches, current, bytes, hasHeavy := batches + [current], [f], f.size, heavy;
      } else {
        Fits(files[..i], batches, current, lim);
        Grow(files[..i], batches, current, f, lim);
        OneMore(current, f, lim);
        current, bytes, hasHeavy := current + [f], bytes + f.size, hasHeavy || heavy;
      }
    }
    assert files[..|files|] == files;
    AllFilled(files, batches, current, lim);
    if current != [] {
      batches := batches + [current];
    }
    BatchesShort(files, batches, lim);
  }

  // ---------------------------------------------------------------- epochs

  function Count(batches: seq<seq<File>>): nat {
    if batches == [] then 0 else Count(batches[..|batches|-1]) + |batches[|batches|-1]|
  }

  /** Directories differ between the last file of a batch and the first of the next. */
  predicate Boundary(last: seq<File>, next: seq<File>) {
    last != [] && next != [] && last[|last|-1].dir != next[0].dir
  }

  /** An epoch of batches `from..to`: enough files unless it is the last one, not too many, and closed at the first change of
      directory after that, or once it has grown past the hard limit. */
  predicate EpochOk(batches: seq<seq<File>>, from: nat, to: nat, target: nat, hard: nat, lim: Limits) {
    && from < to <= |batches|
    && Count(batches[from..to]) < hard + lim.normal
    && (to < |batches| ==> Closes(batches, from, to, target, hard))
    && forall b :: from < b < to ==> !Closes(batches, from, b, target, hard)
  }

  /** The batches since `from` may make an epoch. */
  predicate Closes(batches: seq<seq<File>>, from: nat, to: nat, target: nat, hard: nat) {
    && from < to < |batches| && Count(batches[from..to]) >= target
    && (Boundary(batches[to - 1], batches[to]) || Count(batches[from..to]) >= hard)
  }

  /** An epoch starts where the one before it ended. */
  function StartOf(ends: seq<nat>, e: nat): nat
    requires e <= |ends|
  {
    if e == 0 then 0 else ends[e - 1]
  }

  /** Epoch ends, increasing up to the number of batches: every batch is in exactly one epoch of consecutive ids. */
  ghost predicate EndsOk(batches: seq<seq<File>>, ends: seq<nat>, target: nat, hard: nat, lim: Limits) {
    forall e :: 0 <= e < |ends| ==> EpochOk(batches, StartOf(ends, e), ends[e], target, hard, lim)
  }

  lemma {:induction false} CountMore(batches: seq<seq<File>>, from: nat, to: nat)
    requires from <= to < |batches|
    ensures Count(batches[from..to + 1]) == Count(batches[from..to]) + |batches[to]|
  {
    assert batches[from..to + 1][..to - from] == batches[from..to];
  }

  /** One more epoch, of the batches since the last end. */
  lemma {:induction false} EndHere(batches: seq<seq<File>>, ends: seq<nat>, from: nat, to: nat, target: nat, hard: nat, lim: Limits)
    requires EndsOk(batches, ends, target, hard, lim) && from == StartOf(ends, |ends|)
    requires EpochOk(batches, from, to, target, hard, lim)
    ensures EndsOk(batches, ends + [to], target, hard, lim)
  {
    var ends' := ends + [to];
    hide EpochOk;
    forall e | 0 <= e < |ends'| ensures EpochOk(batches, StartOf(ends', e), ends'[e], target, hard, lim) {
      if e < |ends| {
        assert StartOf(ends', e) == StartOf(ends, e) && EpochOk(batches, StartOf(ends, e), ends[e], target, hard, lim);
      }
    }
  }

  /** Batches below `b` are in closed epochs, or among the `count` files of the open one. */
  ghost predicate Cutting(batches: seq<seq<File>>, ends: seq<nat>, start: nat, count: nat, b: nat, target: nat, hard: nat, lim: Limits) {
    && EndsOk(batches, ends, target, hard, lim) && start == StartOf(ends, |ends|)
    && start <= b <= |batches| && (batches != [] ==> start < |batches|) && count == Count(batches[start..b])
    && count < (if b < |batches| then hard else hard + lim.normal)
    && forall c :: start < c <= b ==> !Closes(batches, start, c, target, hard)
  }

  lemma {:induction false} Stay(batches: seq<seq<File>>, ends: seq<nat>, start: nat, count: nat, b: nat, target: nat, hard: nat, lim: Limits)
    requires Cutting(batches, ends, start, count, b, target, hard, lim) && b < |batches| && target <= hard && BatchOk(batches[b], lim)
    requires b + 1 == |batches| || count + |batches[b]| < target || (!Boundary(batches[b], batches[b + 1]) && count + |batches[b]| < hard)
    ensures Cutting(batches, ends, start, count + |batches[b]|, b + 1, target, hard, lim)
  {
    hide EndsOk;
    CountMore(batches, start, b);
  }

  lemma {:induction false} Cut(batches: seq<seq<File>>, ends: seq<nat>, start: nat, count: nat, b: nat, target: nat, hard: nat, lim: Limits)
    requires Cutting(batches, ends, start, count, b, target, hard, lim) && b + 1 < |batches| && 0 < hard && BatchOk(batches[b], lim)
    requires count + |batches[b]| >= target && (Boundary(batches[b], batches[b + 1]) || count + |batches[b]| >= hard)
    ensures Cutting(batches, ends + [b + 1], b + 1, 0, b + 1, target, hard, lim)
  {
    hide EndsOk, Boundary;
    CountMore(batches, start, b);
    EndHere(batches, ends, start, b + 1, target, hard, lim);
    CountNone(batches, b + 1);
  }

  lemma {:induction false} CutLast(batches: seq<seq<File>>, ends: seq<nat>, start: nat, count: nat, target: nat, hard: nat, lim: Limits)
    requires Cutting(batches, ends, start, count, |batches|, target, hard, lim) && batches != []
    ensures EndsOk(batches, ends + [|batches|], target, hard, lim)
  {
    hide EndsOk;
    EndHere(batches, ends, start, |batches|, target, hard, lim);
  }

  lemma {:induction false} NoneCut(batches: seq<seq<File>>, target: nat, hard: nat, lim: Limits)
    requires 0 < hard
    ensures Cutting(batches, [], 0, 0, 0, target, hard, lim) && EndsOk(batches, [], target, hard, lim)
  {
  }

  /** Where epochs end. */
  method MakeEpochs(batches: seq<seq<File>>, target: nat, hard: nat, lim: Limits) returns (ends: seq<nat>)
    requires 0 < hard && target <= hard && forall b :: 0 <= b < |batches| ==> BatchOk(batches[b], lim)
    ensures EndsOk(batches, ends, target, hard, lim)
    ensures if batches == [] then ends == [] else ends != [] && ends[|ends|-1] == |batches|
  {
    hide Cutting, BatchOk, Boundary, EndsOk, Count;
    ends := [];
    var start: nat, count: nat := 0, 0;
    NoneCut(batches, target, hard, lim);
    for b := 0 to |batches|
      invariant Cutting(batches, ends, start, count, b, target, hard, lim) && (batches == [] ==> ends == [])
    {
      if count + |batches[b]| >= target && b + 1 < |batches| && (Boundary(batches[b], batches[b + 1]) || count + |batches[b]| >= hard) {
        Cut(batches, ends, start, count, b, target, hard, lim);
        ends, start, count := ends + [b + 1], b + 1, 0;
      } else {
        Stay(batches, ends, start, count, b, target, hard, lim);
        count := count + |batches[b]|;
      }
    }
    if batches != [] {
      CutLast(batches, ends, start, count, target, hard, lim);
      ends := ends + [|batches|];
    }
  }

  lemma {:induction false} CountNone(batches: seq<seq<File>>, at: nat)
    requires at <= |batches|
    ensures Count(batches[at..at]) == 0
  {
  }

  // ---------------------------------------------------------------- order within an epoch

  /** Insert a batch behind all that are at least as large. */
  function Insert(batches: seq<seq<File>>, ids: seq<nat>, b: nat): seq<nat>
    requires b < |batches| && forall i :: 0 <= i < |ids| ==> ids[i] < |batches|
  {
    if ids == [] then [b]
    else if Bytes(batches[ids[0]]) >= Bytes(batches[b]) then [ids[0]] + Insert(batches, ids[1..], b)
    else [b] + ids
  }

  predicate Precedes(batches: seq<seq<File>>, a: nat, b: nat) {
    a < |batches| && b < |batches|
    && (Bytes(batches[a]) > Bytes(batches[b]) || (Bytes(batches[a]) == Bytes(batches[b]) && a < b))
  }

  /** The ids of an epoch's batches, the largest first; batches of the same size keep their order. */
  ghost predicate LargestFirst(batches: seq<seq<File>>, ids: seq<nat>, from: nat, to: nat) {
    && from <= to <= |batches| && |ids| == to - from
    && (forall x: nat :: x in ids <==> from <= x < to)
    && forall i, j :: 0 <= i < j < |ids| ==> Precedes(batches, ids[i], ids[j])
  }

  lemma {:induction false} InsertShape(batches: seq<seq<File>>, ids: seq<nat>, b: nat) returns (k: nat)
    requires b < |batches| && forall i :: 0 <= i < |ids| ==> ids[i] < |batches|
    ensures k <= |ids| && Insert(batches, ids, b) == ids[..k] + [b] + ids[k..]
    ensures forall i :: 0 <= i < k ==> Bytes(batches[ids[i]]) >= Bytes(batches[b])
    ensures k < |ids| ==> Bytes(batches[ids[k]]) < Bytes(batches[b])
    decreases |ids|
  {
    if ids == [] || Bytes(batches[ids[0]]) < Bytes(batches[b]) {
      k := 0;
    } else {
      var m := InsertShape(batches, ids[1..], b);
      k := m + 1;
      assert [ids[0]] + (ids[1..][..m] + [b] + ids[1..][m..]) == ids[..k] + [b] + ids[k..];
    }
  }

  lemma {:induction false} InsertMembers(batches: seq<seq<File>>, ids: seq<nat>, b: nat)
    requires b < |batches| && forall i :: 0 <= i < |ids| ==> ids[i] < |batches|
    ensures |Insert(batches, ids, b)| == |ids| + 1
    ensures forall x :: x in Insert(batches, ids, b) <==> x in ids || x == b
    decreases |ids|
  {
    if ids != [] && Bytes(batches[ids[0]]) >= Bytes(batches[b]) {
      InsertMembers(batches, ids[1..], b);
      assert ids == [ids[0]] + ids[1..];
    }
  }

  lemma {:induction false} InsertOrdered(batches: seq<seq<File>>, ids: seq<nat>, b: nat)
    requires b < |batches| && (forall i :: 0 <= i < |ids| ==> ids[i] < b)
    requires forall i, j :: 0 <= i < j < |ids| ==> Precedes(batches, ids[i], ids[j])
    ensures forall i, j :: 0 <= i < j < |ids| + 1 ==> |Insert(batches, ids, b)| == |ids| + 1 && Precedes(batches, Insert(batches, ids, b)[i], Insert(batches, ids, b)[j])
  {
    var k := InsertShape(batches, ids, b);
    var r := Insert(batches, ids, b);
    forall i, j | 0 <= i < j < |r| ensures Precedes(batches, r[i], r[j]) {
      assert r[i] == if i < k then ids[i] else if i == k then b else ids[i - 1];
      assert r[j] == if j < k then ids[j] else if j == k then b else ids[j - 1];
      if i == k && j - 1 > k {
        assert Precedes(batches, ids[k], ids[j - 1]);
      }
    }
  }

  lemma {:induction false} InsertKeeps(batches: seq<seq<File>>, ids: seq<nat>, from: nat, to: nat)
    requires LargestFirst(batches, ids, from, to) && to < |batches|
    ensures (forall i :: 0 <= i < |ids| ==> ids[i] < |batches|) && LargestFirst(batches, Insert(batches, ids, to), from, to + 1)
  {
    forall i | 0 <= i < |ids| ensures ids[i] < to {
      assert ids[i] in ids;
    }
    InsertMembers(batches, ids, to);
    InsertOrdered(batches, ids, to);
    hide Precedes, Insert;
  }

  /** The batches of an epoch, largest first. */
  method Order(batches: seq<seq<File>>, from: nat, to: nat) returns (ids: seq<nat>)
    requires from <= to <= |batches|
    ensures LargestFirst(batches, ids, from, to)
  {
    ids := [];
    for b := from to to
      invariant LargestFirst(batches, ids, from, b)
    {
      InsertKeeps(batches, ids, from, b);
      ids := Insert(batches, ids, b);
    }
  }

  /** The byte budget of a batch when the files fit in one epoch: no more than an equal share of the bytes. */
  function Budget(files: seq<File>, lim: Limits, workers: nat, perWorker: nat): nat
    requires perWorker > 0
  {
    if workers == 0 then lim.maxBytes
    else
      var parts := workers * perWorker;
      var share := if parts == 0 then 0 else (Bytes(files) + parts - 1) / parts;
      var least := if lim.threshold >= share then lim.threshold else share;
      if lim.maxBytes <= least then lim.maxBytes else least
  }

  /** No more than `lim.maxBytes`, and otherwise no less than the threshold for heavy files, and just enough for `parts` batches
      to hold all bytes. */
  ghost predicate FairShare(budget: nat, bytes: nat, parts: nat, lim: Limits) {
    && budget <= lim.maxBytes
    && (budget < lim.maxBytes ==> budget >= lim.threshold && budget * parts >= bytes)
    && (budget > lim.threshold ==> bytes > 0 && (budget - 1) * parts < bytes)
  }

  lemma {:induction false} BudgetIsFair(files: seq<File>, lim: Limits, workers: nat, perWorker: nat)
    requires perWorker > 0
    ensures var budget := Budget(files, lim, workers, perWorker);
            if workers == 0 then budget == lim.maxBytes else FairShare(budget, Bytes(files), workers * perWorker, lim)
  {
    if workers > 0 {
      var parts := workers * perWorker;
      PartsPositive(workers, perWorker);
      RoundedUp(Bytes(files), parts);
      var share: int := (Bytes(files) + parts - 1) / parts;
      var budget: int := Budget(files, lim, workers, perWorker);
      assert budget == lim.maxBytes || budget == lim.threshold || budget == share;
      Product(share, budget, parts);
      Product(budget - 1, share - 1, parts);
    }
  }

  lemma {:induction false} PartsPositive(a: nat, b: nat)
    requires a > 0 && b > 0
    ensures a * b > 0
  {
  }

  lemma {:induction false} RoundedUp(bytes: nat, parts: nat)
    requires parts > 0
    ensures var share := (bytes + parts - 1) / parts; share * parts >= bytes && (share - 1) * parts < bytes && (bytes == 0 ==> share == 0)
  {
  }

  lemma {:induction false} Product(a: int, b: int, c: nat)
    ensures a <= b ==> a * c <= b * c
  {
  }

  /** Batches, and for every epoch the ids of its batches, largest first. `soft` and `hard` are the target times 1.3 and 1.35. */
  method Partition(files: seq<File>, lim: Limits, target: nat, soft: nat, hard: nat, workers: nat, perWorker: nat)
    returns (batches: seq<seq<File>>, ends: seq<nat>, epochs: seq<seq<nat>>)
    requires lim.Valid() && 0 < hard && target <= hard && perWorker > 0
    ensures var budget := if |files| <= soft then Budget(files, lim, workers, perWorker) else lim.maxBytes;
            && BatchesOk(files, batches, lim.(maxBytes := budget)) && ShortIfLarge(batches, lim.(maxBytes := budget))
            && if |files| <= soft && workers > 0 then FairShare(budget, Bytes(files), workers * perWorker, lim) else budget == lim.maxBytes
    ensures if batches == [] then ends == [] else ends != [] && ends[|ends|-1] == |batches|
    ensures if |files| <= soft then |ends| <= 1 else EndsOk(batches, ends, target, hard, lim)
    ensures AllOrdered(batches, ends, epochs)
  {
    hide BatchesOk, BatchOk, ShortIfLarge, FairShare, EndsOk, AllOrdered, Increasing, Budget, Bytes;
    BudgetIsFair(files, lim, workers, perWorker);
    var budget := if |files| <= soft then Budget(files, lim, workers, perWorker) else lim.maxBytes;
    batches := MakeBatches(files, lim.(maxBytes := budget));
    if |files| <= soft {
      ends := if batches == [] then [] else [|batches|];
    } else {
      BatchesFit(files, batches, lim);
      ends := MakeEpochs(batches, target, hard, lim);
    }
    EndsIncrease(batches, ends, target, hard, lim);
    epochs := OrderAll(batches, ends);
  }

  lemma {:induction false} BatchesFit(files: seq<File>, batches: seq<seq<File>>, lim: Limits)
    requires BatchesOk(files, batches, lim)
    ensures forall b :: 0 <= b < |batches| ==> BatchOk(batches[b], lim)
  {
  }

  predicate Increasing(batches: seq<seq<File>>, ends: seq<nat>) {
    forall e :: 0 <= e < |ends| ==> StartOf(ends, e) <= ends[e] <= |batches|
  }

  lemma {:induction false} EndsIncrease(batches: seq<seq<File>>, ends: seq<nat>, target: nat, hard: nat, lim: Limits)
    requires ends == [] || ends == [|batches|] || EndsOk(batches, ends, target, hard, lim)
    ensures Increasing(batches, ends)
  {
    forall e | 0 <= e < |ends| ensures StartOf(ends, e) <= ends[e] <= |batches| {
      assert EndsOk(batches, ends, target, hard, lim) ==> EpochOk(batches, StartOf(ends, e), ends[e], target, hard, lim);
    }
  }

  ghost predicate AllOrdered(batches: seq<seq<File>>, ends: seq<nat>, epochs: seq<seq<nat>>) {
    |epochs| == |ends| && forall e :: 0 <= e < |epochs| ==> LargestFirst(batches, epochs[e], StartOf(ends, e), ends[e])
  }

  lemma {:induction false} EndAt(batches: seq<seq<File>>, ends: seq<nat>, e: nat)
    requires Increasing(batches, ends) && e < |ends|
    ensures StartOf(ends, e) <= ends[e] <= |batches|
  {
  }

  method OrderAll(batches: seq<seq<File>>, ends: seq<nat>) returns (epochs: seq<seq<nat>>)
    requires Increasing(batches, ends)
    ensures AllOrdered(batches, ends, epochs)
  {
    epochs := [];
    for e := 0 to |ends|
      invariant |epochs| == e && forall d :: 0 <= d < e ==> LargestFirst(batches, epochs[d], StartOf(ends, d), ends[d])
    {
      hide LargestFirst, Increasing;
      assert StartOf(ends, e) <= ends[e] <= |batches| by {
        EndAt(batches, ends, e);
      }
      var ids := Order(batches, StartOf(ends, e), ends[e]);
      epochs := epochs + [ids];
    }
  }
}
