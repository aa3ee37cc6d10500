/** Wave execution of the files left over (main.py): free files first, a forced file when none is free. The incremental
    bookkeeping computes a fixed order; that order executes each file once, after its dependencies unless it is
    forced, and forces a file only when the files left contain a cycle. */
module Waves {
  import opened Basics

  /** Paths, ordered as their text. */
  type Path = int

  /** One execution; a forced one stubs what it still waits on. */
  datatype Step = Step(path: Path, forced: bool)

  type Deps = map<Path, set<Path>>

  /** The other files of `files` that `p` depends on. */
  function DepsIn(fileDeps: Deps, files: set<Path>, p: Path): set<Path> {
    if p in fileDeps then fileDeps[p] * files - {p} else {}
  }

  function Dependents(fileDeps: Deps, files: set<Path>, p: Path): set<Path> {
    set q | q in files && p in DepsIn(fileDeps, files, q)
  }

  /** Files of `files` that depend on none of them. */
  function Free(fileDeps: Deps, files: set<Path>): set<Path> {
    set p | p in files && DepsIn(fileDeps, files, p) == {}
  }

  function OpCount(ops: map<Path, nat>, p: Path): nat {
    if p in ops then ops[p] else 0
  }

  /** The second file is forced rather than the first: more files wait on it, then fewer operations to stub, then the
      later path. Files forced before still count among those waiting. */
  predicate Rather(fileDeps: Deps, ops: map<Path, nat>, all: set<Path>, k: Path, c: Path) {
    var m, n := |Dependents(fileDeps, all, k)|, |Dependents(fileDeps, all, c)|;
    m < n || (m == n && (OpCount(ops, k) > OpCount(ops, c) || (OpCount(ops, k) == OpCount(ops, c) && k <= c)))
  }

  ghost predicate Candidate(fileDeps: Deps, ops: map<Path, nat>, all: set<Path>, left: set<Path>, c: Path) {
    c in left && forall k :: k in left ==> Rather(fileDeps, ops, all, k, c)
  }

  ghost predicate Smallest(s: set<Path>, m: Path) {
    m in s && forall x :: x in s ==> m <= x
  }

  lemma {:induction false} SmallestExists(s: set<Path>)
    requires s != {}
    ensures exists m :: Smallest(s, m)
    decreases |s|
  {
    var x := Member(s);
    if s == {x} {
      assert Smallest(s, x);
    } else {
      SmallestExists(s - {x});
      var m :| Smallest(s - {x}, m);
      var n := if x < m then x else m;
      forall y | y in s ensures n <= y {
        assert y == x || y in s - {x};
      }
      assert Smallest(s, n);
    }
  }

  ghost function Sorted(s: set<Path>): (r: seq<Path>)
    ensures |r| == |s| && forall x :: x in r <==> x in s
    decreases |s|
  {
    if s == {} then []
    else
      SmallestExists(s);
      var m :| Smallest(s, m);
      [m] + Sorted(s - {m})
  }

  lemma {:induction false} CandidateExists(fileDeps: Deps, ops: map<Path, nat>, all: set<Path>, left: set<Path>)
    requires left != {}
    ensures exists c :: Candidate(fileDeps, ops, all, left, c)
    decreases |left|
  {
    var x := Member(left);
    if left == {x} {
      assert Candidate(fileDeps, ops, all, left, x);
    } else {
      CandidateExists(fileDeps, ops, all, left - {x});
      var c :| Candidate(fileDeps, ops, all, left - {x}, c);
      var b := if Rather(fileDeps, ops, all, c, x) then x else c;
      forall k | k in left ensures Rather(fileDeps, ops, all, k, b) {
        assert k == x || k in left - {x};
      }
      assert Candidate(fileDeps, ops, all, left, b);
    }
  }

  // ---------------------------------------------------------------- the order

  function Clean(paths: seq<Path>): (r: seq<Step>)
    ensures |r| == |paths| && forall i :: 0 <= i < |paths| ==> r[i] == Step(paths[i], false)
  {
    seq(|paths|, i requires 0 <= i < |paths| => Step(paths[i], false))
  }

  /** The order in which the files of `left` are executed: all free files, sorted; when there is none, one candidate. */
  ghost function Order(fileDeps: Deps, ops: map<Path, nat>, all: set<Path>, left: set<Path>): seq<Step>
    decreases |left|
  {
    if left == {} then []
    else if Free(fileDeps, left) == {} then
      CandidateExists(fileDeps, ops, all, left);
      var c :| Candidate(fileDeps, ops, all, left, c);
      [Step(c, true)] + Order(fileDeps, ops, all, left - {c})
    else
      Fewer(left, Free(fileDeps, left));
      Clean(Sorted(Free(fileDeps, left))) + Order(fileDeps, ops, all, left - Free(fileDeps, left))
  }

  lemma {:induction false} Fewer(left: set<Path>, gone: set<Path>)
    requires gone <= left && gone != {}
    ensures |left - gone| < |left|
  {
    var x := Member(gone);
    assert left - gone < left;
    Smaller(left - gone, left);
  }

  lemma {:induction false} Smaller(s: set<Path>, t: set<Path>)
    requires s < t
    ensures |s| < |t|
  {
    assert t == s + (t - s);
  }

  lemma {:induction false} OneCandidate(fileDeps: Deps, ops: map<Path, nat>, all: set<Path>, left: set<Path>, c: Path, d: Path)
    requires Candidate(fileDeps, ops, all, left, c) && Candidate(fileDeps, ops, all, left, d)
    ensures c == d
  {
    assert Rather(fileDeps, ops, all, c, d) && Rather(fileDeps, ops, all, d, c);
  }

  // ---------------------------------------------------------------- what the order guarantees

  function Executed(order: seq<Step>, n: nat): set<Path>
    requires n <= |order|
  {
    set i | 0 <= i < n :: order[i].path
  }

  /** What is still unexecuted before step `n`. */
  function LeftAt(left: set<Path>, order: seq<Step>, n: nat): set<Path>
    requires n <= |order|
  {
    left - Executed(order, n)
  }

  /** A step executes a file that is left; unless forced, it is free; if forced, no file left is free. */
  predicate StepOk(fileDeps: Deps, left: set<Path>, order: seq<Step>, n: nat)
    requires n < |order|
  {
    && order[n].path in LeftAt(left, order, n)
    && if order[n].forced then Free(fileDeps, LeftAt(left, order, n)) == {}
       else DepsIn(fileDeps, LeftAt(left, order, n), order[n].path) == {}
  }

  /** Prepending steps that execute `gone` shifts every verdict. */
  lemma {:induction false} Shifted(fileDeps: Deps, left: set<Path>, first: seq<Step>, rest: seq<Step>, gone: set<Path>, n: nat)
    requires gone == Executed(first, |first|) && |first| <= n < |first + rest| && StepOk(fileDeps, left - gone, rest, n - |first|)
    ensures StepOk(fileDeps, left, first + rest, n)
  {
    ExecutedConcat(first, rest, n - |first|);
    assert LeftAt(left, first + rest, n) == LeftAt(left - gone, rest, n - |first|);
  }

  lemma {:induction false} ExecutedConcat(first: seq<Step>, rest: seq<Step>, m: nat)
    requires m <= |rest|
    ensures Executed(first + rest, |first| + m) == Executed(first, |first|) + Executed(rest, m)
  {
    var both := first + rest;
    forall x | x in Executed(rest, m) ensures x in Executed(both, |first| + m) {
      var i :| 0 <= i < m && rest[i].path == x;
      assert both[|first| + i].path == x;
    }
    forall x | x in Executed(first, |first|) ensures x in Executed(both, |first| + m) {
      var i :| 0 <= i < |first| && first[i].path == x;
      assert both[i].path == x;
    }
    forall x | x in Executed(both, |first| + m) ensures x in Executed(first, |first|) + Executed(rest, m) {
      var i :| 0 <= i < |first| + m && both[i].path == x;
      if i >= |first| {
        assert rest[i - |first|].path == x;
      } else {
        assert first[i].path == x;
      }
    }
  }

  lemma {:induction false} ExecutedClean(s: set<Path>)
    ensures Executed(Clean(Sorted(s)), |Sorted(s)|) == s
  {
    var steps := Clean(Sorted(s));
    forall x | x in s ensures x in Executed(steps, |steps|) {
      assert x in Sorted(s);
      var i :| 0 <= i < |Sorted(s)| && Sorted(s)[i] == x;
      assert steps[i].path == x;
    }
  }

  lemma {:induction false} SortedDistinct(s: set<Path>, i: nat, j: nat)
    requires i < j < |Sorted(s)|
    ensures Sorted(s)[i] < Sorted(s)[j]
    decreases |s|
  {
    var m := Sorted(s)[0];
    var rest := s - {m};
    assert Sorted(s) == [m] + Sorted(rest) && Smallest(s, m);
    if i == 0 {
      assert Sorted(s)[j] in Sorted(rest);
    } else {
      SortedDistinct(rest, i - 1, j - 1);
    }
  }

  /** The first wave: distinct free files. */
  lemma {:induction false} WaveOk(fileDeps: Deps, left: set<Path>, rest: seq<Step>, n: nat)
    requires n < |Sorted(Free(fileDeps, left))|
    ensures StepOk(fileDeps, left, Clean(Sorted(Free(fileDeps, left))) + rest, n)
  {
    var wave := Sorted(Free(fileDeps, left));
    var order := Clean(wave) + rest;
    var p := wave[n];
    assert p in Free(fileDeps, left);
    forall i | 0 <= i < n ensures order[i].path != p {
      SortedDistinct(Free(fileDeps, left), i, n);
    }
    assert DepsIn(fileDeps, LeftAt(left, order, n), p) <= DepsIn(fileDeps, left, p);
  }

  /** The order begins with `first`, which executes `gone`, each step justified. */
  ghost predicate Head(fileDeps: Deps, ops: map<Path, nat>, all: set<Path>, left: set<Path>, first: seq<Step>, gone: set<Path>) {
    && Order(fileDeps, ops, all, left) == first + Order(fileDeps, ops, all, left - gone)
    && gone <= left && gone != {} && Executed(first, |first|) == gone && |first| == |gone|
    && forall n, rest :: 0 <= n < |first| ==> StepOk(fileDeps, left, first + rest, n)
  }

  lemma {:induction false} ForcedHead(fileDeps: Deps, ops: map<Path, nat>, all: set<Path>, left: set<Path>) returns (c: Path)
    requires left != {} && Free(fileDeps, left) == {}
    ensures Head(fileDeps, ops, all, left, [Step(c, true)], {c})
  {
    c := Order(fileDeps, ops, all, left)[0].path;
    forall n, rest | 0 <= n < 1 ensures StepOk(fileDeps, left, [Step(c, true)] + rest, n) {
      assert LeftAt(left, [Step(c, true)] + rest, 0) == left;
    }
  }

  lemma {:induction false} WaveHead(fileDeps: Deps, ops: map<Path, nat>, all: set<Path>, left: set<Path>)
    requires left != {} && Free(fileDeps, left) != {}
    ensures Head(fileDeps, ops, all, left, Clean(Sorted(Free(fileDeps, left))), Free(fileDeps, left))
  {
    var free := Free(fileDeps, left);
    var first := Clean(Sorted(free));
    assert Order(fileDeps, ops, all, left) == first + Order(fileDeps, ops, all, left - free);
    assert free <= left;
    hide Order, StepOk, Executed, Free;
    ExecutedClean(free);
    forall n, rest | 0 <= n < |first| ensures StepOk(fileDeps, left, first + rest, n) {
      WaveOk(fileDeps, left, rest, n);
    }
  }

  /** How the order begins: one forced candidate, or a wave of all free files. */
  lemma {:induction false} OrderHead(fileDeps: Deps, ops: map<Path, nat>, all: set<Path>, left: set<Path>)
    returns (first: seq<Step>, gone: set<Path>)
    requires left != {}
    ensures Head(fileDeps, ops, all, left, first, gone)
  {
    hide Order, Head;
    if Free(fileDeps, left) == {} {
      var c := ForcedHead(fileDeps, ops, all, left);
      first, gone := [Step(c, true)], {c};
    } else {
      WaveHead(fileDeps, ops, all, left);
      first, gone := Clean(Sorted(Free(fileDeps, left))), Free(fileDeps, left);
    }
  }

  /** Every step of the order is justified by what is left before it. */
  lemma {:induction false} OrderSteps(fileDeps: Deps, ops: map<Path, nat>, all: set<Path>, left: set<Path>, n: nat)
    requires n < |Order(fileDeps, ops, all, left)|
    ensures StepOk(fileDeps, left, Order(fileDeps, ops, all, left), n)
    decreases |left|
  {
    assert left != {};
    var first, gone := OrderHead(fileDeps, ops, all, left);
    hide Order, StepOk, Executed;
    Fewer(left, gone);
    if n >= |first| {
      OrderSteps(fileDeps, ops, all, left - gone, n - |first|);
      Shifted(fileDeps, left, first, Order(fileDeps, ops, all, left - gone), gone, n);
    }
  }

  lemma {:induction false} OrderCount(fileDeps: Deps, ops: map<Path, nat>, all: set<Path>, left: set<Path>)
    ensures |Order(fileDeps, ops, all, left)| == |left|
    decreases |left|
  {
    if left != {} {
      var first, gone := OrderHead(fileDeps, ops, all, left);
      hide Order, Executed, StepOk;
      Fewer(left, gone);
      OrderCount(fileDeps, ops, all, left - gone);
      assert left == gone + (left - gone);
    }
  }

  /** Every file is executed, and none twice. */
  lemma {:induction false} EachOnce(fileDeps: Deps, ops: map<Path, nat>, left: set<Path>)
    ensures var order := Order(fileDeps, ops, left, left);
            && (forall p :: p in left ==> exists i :: 0 <= i < |order| && order[i].path == p)
            && (forall i :: 0 <= i < |order| ==> order[i].path in left)
            && (forall i, j :: 0 <= i < j < |order| ==> order[i].path != order[j].path)
  {
    var order := Order(fileDeps, ops, left, left);
    forall i, j | 0 <= i < j < |order| ensures order[i].path != order[j].path {
      OrderSteps(fileDeps, ops, left, left, j);
      assert order[i].path in Executed(order, j);
    }
    forall i | 0 <= i < |order| ensures order[i].path in left {
      OrderSteps(fileDeps, ops, left, left, i);
    }
    OrderCount(fileDeps, ops, left, left);
    DistinctCount(order, |order|);
    assert Executed(order, |order|) <= left;
    if Executed(order, |order|) != left {
      Smaller(Executed(order, |order|), left);
    }
    forall p | p in left ensures exists i :: 0 <= i < |order| && order[i].path == p {
      assert p in Executed(order, |order|);
    }
  }

  lemma {:induction false} DistinctCount(order: seq<Step>, n: nat)
    requires n <= |order| && forall i, j :: 0 <= i < j < |order| ==> order[i].path != order[j].path
    ensures |Executed(order, n)| == n
    decreases n
  {
    if n == 0 {
      assert Executed(order, 0) == {};
    } else {
      DistinctCount(order, n - 1);
      assert order[n - 1].path !in Executed(order, n - 1);
      assert Executed(order, n) == Executed(order, n - 1) + {order[n - 1].path};
    }
  }

  /** A file that is not forced runs after every file it depends on. */
  lemma {:induction false} AfterDependencies(fileDeps: Deps, ops: map<Path, nat>, left: set<Path>, n: nat, d: Path)
    requires n < |Order(fileDeps, ops, left, left)| && !Order(fileDeps, ops, left, left)[n].forced
    requires d in DepsIn(fileDeps, left, Order(fileDeps, ops, left, left)[n].path)
    ensures exists i :: 0 <= i < n && Order(fileDeps, ops, left, left)[i].path == d
  {
    var order := Order(fileDeps, ops, left, left);
    OrderSteps(fileDeps, ops, left, left, n);
    assert d in DepsIn(fileDeps, LeftAt(left, order, n), order[n].path) || d in Executed(order, n);
  }

  // ---------------------------------------------------------------- forcing and cycles

  /** A closed walk along dependencies within `files`. */
  predicate Cycle(fileDeps: Deps, files: set<Path>, walk: seq<Path>) {
    && |walk| >= 2 && walk[0] == walk[|walk|-1]
    && (forall i :: 0 <= i < |walk| ==> walk[i] in files)
    && forall i :: 0 <= i < |walk| - 1 ==> walk[i + 1] in DepsIn(fileDeps, files, walk[i])
  }

  predicate Walk(fileDeps: Deps, files: set<Path>, walk: seq<Path>) {
    && walk != []
    && (forall i :: 0 <= i < |walk| ==> walk[i] in files)
    && forall i :: 0 <= i < |walk| - 1 ==> walk[i + 1] in DepsIn(fileDeps, files, walk[i])
  }

  lemma {:induction false} LongWalk(fileDeps: Deps, files: set<Path>, n: nat) returns (walk: seq<Path>)
    requires files != {} && Free(fileDeps, files) == {}
    ensures |walk| == n + 1 && Walk(fileDeps, files, walk)
    decreases n
  {
    if n == 0 {
      var p := Member(files);
      walk := [p];
    } else {
      walk := LongWalk(fileDeps, files, n - 1);
      var last := walk[|walk|-1];
      assert last !in Free(fileDeps, files);
      var d := Member(DepsIn(fileDeps, files, last));
      walk := walk + [d];
    }
  }

  lemma {:induction false} Repeats(walk: seq<Path>, files: set<Path>) returns (i: nat, j: nat)
    requires |walk| > |files| && forall k :: 0 <= k < |walk| ==> walk[k] in files
    ensures i < j < |walk| && walk[i] == walk[j]
    decreases |walk|
  {
    var n := |walk| - 1;
    if exists k :: 0 <= k < n && walk[k] == walk[n] {
      i :| 0 <= i < n && walk[i] == walk[n];
      j := n;
    } else {
      i, j := Repeats(walk[..n], files - {walk[n]});
    }
  }

  /** When no file is free, the files contain a cycle. */
  lemma {:induction false} CycleExists(fileDeps: Deps, files: set<Path>) returns (walk: seq<Path>)
    requires files != {} && Free(fileDeps, files) == {}
    ensures Cycle(fileDeps, files, walk)
  {
    var long := LongWalk(fileDeps, files, |files|);
    var i, j := Repeats(long, files);
    walk := long[i..j + 1];
  }

  /** A file is forced only when the files still unexecuted contain a cycle. */
  lemma {:induction false} ForcedMeansCycle(fileDeps: Deps, ops: map<Path, nat>, left: set<Path>, n: nat) returns (walk: seq<Path>)
    requires n < |Order(fileDeps, ops, left, left)| && Order(fileDeps, ops, left, left)[n].forced
    ensures Cycle(fileDeps, LeftAt(left, Order(fileDeps, ops, left, left), n), walk)
  {
    OrderSteps(fileDeps, ops, left, left, n);
    walk := CycleExists(fileDeps, LeftAt(left, Order(fileDeps, ops, left, left), n));
  }

  // ---------------------------------------------------------------- which file is forced

  /** A forced step takes the candidate among the files left. */
  lemma {:induction false} ForcedIsCandidate(fileDeps: Deps, ops: map<Path, nat>, all: set<Path>, left: set<Path>, n: nat)
    requires n < |Order(fileDeps, ops, all, left)| && Order(fileDeps, ops, all, left)[n].forced
    ensures Candidate(fileDeps, ops, all, LeftAt(left, Order(fileDeps, ops, all, left), n), Order(fileDeps, ops, all, left)[n].path)
    decreases |left|
  {
    assert left != {};
    FirstForced(fileDeps, ops, all, left);
    if n == 0 {
      hide Order, Candidate;
      assert LeftAt(left, Order(fileDeps, ops, all, left), 0) == left;
    } else if Free(fileDeps, left) == {} {
      hide Order, Candidate, Head;
      var c := ForcedHead(fileDeps, ops, all, left);
      ForcedLater(fileDeps, ops, all, left, [Step(c, true)], {c}, n);
    } else {
      hide Order, Candidate, Head, Executed, StepOk;
      WaveHead(fileDeps, ops, all, left);
      BeyondWave(fileDeps, ops, all, left, n);
      ForcedLater(fileDeps, ops, all, left, Clean(Sorted(Free(fileDeps, left))), Free(fileDeps, left), n);
    }
  }

  /** Of the files most files wait on, the forced one has fewest operations, and of those with as few the last path. */
  lemma {:induction false} ForcedHasFewestOperations(fileDeps: Deps, ops: map<Path, nat>, all: set<Path>, left: set<Path>, n: nat, k: Path)
    requires n < |Order(fileDeps, ops, all, left)| && Order(fileDeps, ops, all, left)[n].forced
    requires k in LeftAt(left, Order(fileDeps, ops, all, left), n) && k in ops && Order(fileDeps, ops, all, left)[n].path in ops
    ensures var c := Order(fileDeps, ops, all, left)[n].path;
            && |Dependents(fileDeps, all, k)| <= |Dependents(fileDeps, all, c)|
            && (|Dependents(fileDeps, all, k)| == |Dependents(fileDeps, all, c)| ==> ops[c] <= ops[k] && (ops[c] == ops[k] ==> k <= c))
  {
    hide Order, LeftAt, Dependents;
    ForcedIsCandidate(fileDeps, ops, all, left, n);
    var c := Order(fileDeps, ops, all, left)[n].path;
    assert Rather(fileDeps, ops, all, k, c);
  }

  lemma {:induction false} FirstForced(fileDeps: Deps, ops: map<Path, nat>, all: set<Path>, left: set<Path>)
    requires left != {} && |Order(fileDeps, ops, all, left)| > 0
    ensures Order(fileDeps, ops, all, left)[0].forced ==> Candidate(fileDeps, ops, all, left, Order(fileDeps, ops, all, left)[0].path)
  {
    if Free(fileDeps, left) != {} {
      var wave := Clean(Sorted(Free(fileDeps, left)));
      assert wave != [] && Order(fileDeps, ops, all, left)[0] == wave[0];
    }
  }

  lemma {:induction false} BeyondWave(fileDeps: Deps, ops: map<Path, nat>, all: set<Path>, left: set<Path>, n: nat)
    requires left != {} && Free(fileDeps, left) != {} && n < |Order(fileDeps, ops, all, left)| && Order(fileDeps, ops, all, left)[n].forced
    ensures n >= |Clean(Sorted(Free(fileDeps, left)))|
  {
    var wave := Clean(Sorted(Free(fileDeps, left)));
    assert Order(fileDeps, ops, all, left) == wave + Order(fileDeps, ops, all, left - Free(fileDeps, left));
  }

  lemma {:induction false} ForcedLater(fileDeps: Deps, ops: map<Path, nat>, all: set<Path>, left: set<Path>, first: seq<Step>, gone: set<Path>, n: nat)
    requires Head(fileDeps, ops, all, left, first, gone) && |first| <= n < |Order(fileDeps, ops, all, left)|
    requires Order(fileDeps, ops, all, left)[n].forced
    ensures Candidate(fileDeps, ops, all, LeftAt(left, Order(fileDeps, ops, all, left), n), Order(fileDeps, ops, all, left)[n].path)
    decreases |left|, 0
  {
    var rest := Order(fileDeps, ops, all, left - gone);
    hide Order, StepOk, Executed, Candidate;
    Fewer(left, gone);
    ForcedIsCandidate(fileDeps, ops, all, left - gone, n - |first|);
    ExecutedConcat(first, rest, n - |first|);
    assert LeftAt(left, first + rest, n) == LeftAt(left - gone, rest, n - |first|);
  }

  /** The files forced before step `n` that depend on `k`. */
  function ForcedOn(fileDeps: Deps, left: set<Path>, order: seq<Step>, n: nat, k: Path): set<Path>
    requires n <= |order|
  {
    set m | 0 <= m < n && order[m].forced && order[m].path in Dependents(fileDeps, left, k) :: order[m].path
  }

  /** A file unexecuted so far is counted for the files still waiting on it and for those forced before that depend on it. */
  lemma {:induction false} CountedTwice(fileDeps: Deps, ops: map<Path, nat>, left: set<Path>, n: nat, k: Path)
    requires n <= |Order(fileDeps, ops, left, left)| && k in LeftAt(left, Order(fileDeps, ops, left, left), n)
    ensures var order := Order(fileDeps, ops, left, left);
            |Dependents(fileDeps, left, k)| == |Dependents(fileDeps, LeftAt(left, order, n), k)| + |ForcedOn(fileDeps, left, order, n, k)|
  {
    var order := Order(fileDeps, ops, left, left);
    var now, forced := Dependents(fileDeps, LeftAt(left, order, n), k), ForcedOn(fileDeps, left, order, n, k);
    forall q ensures q in Dependents(fileDeps, left, k) <==> q in now || q in forced {
      if q in Dependents(fileDeps, left, k) && q !in LeftAt(left, order, n) {
        assert q in Executed(order, n);
        var m :| 0 <= m < n && order[m].path == q;
        OrderSteps(fileDeps, ops, left, left, m);
        UnforcedIsFree(fileDeps, left, order, m, n, k);
      }
    }
    hide Order;
    assert Dependents(fileDeps, left, k) == now + forced;
    forall q | q in forced ensures q !in now {
      var m :| 0 <= m < n && order[m].forced && order[m].path == q;
      assert q in Executed(order, n);
    }
    assert now !! forced;
  }

  /** A file that is not forced executes after the files it depends on. */
  lemma {:induction false} UnforcedIsFree(fileDeps: Deps, left: set<Path>, order: seq<Step>, m: nat, n: nat, k: Path)
    requires m < n <= |order| && StepOk(fileDeps, left, order, m) && k in LeftAt(left, order, n) && order[m].path in Dependents(fileDeps, left, k)
    ensures order[m].forced
  {
    assert Executed(order, m) <= Executed(order, n);
    assert k in LeftAt(left, order, m);
    assert k in DepsIn(fileDeps, LeftAt(left, order, m), order[m].path);
  }

  /** The first file forced is the one most of the files left wait on. */
  lemma {:induction false} FirstForcedHasMost(fileDeps: Deps, ops: map<Path, nat>, left: set<Path>, n: nat, k: Path)
    requires n < |Order(fileDeps, ops, left, left)| && Order(fileDeps, ops, left, left)[n].forced
    requires forall m :: 0 <= m < n ==> !Order(fileDeps, ops, left, left)[m].forced
    requires k in LeftAt(left, Order(fileDeps, ops, left, left), n)
    ensures var order := Order(fileDeps, ops, left, left);
            |Dependents(fileDeps, LeftAt(left, order, n), k)| <= |Dependents(fileDeps, LeftAt(left, order, n), order[n].path)|
  {
    var order := Order(fileDeps, ops, left, left);
    var c := order[n].path;
    ForcedIsCandidate(fileDeps, ops, left, left, n);
    assert Rather(fileDeps, ops, left, k, c);
    CountedTwice(fileDeps, ops, left, n, k);
    CountedTwice(fileDeps, ops, left, n, c);
    assert ForcedOn(fileDeps, left, order, n, k) == {} && ForcedOn(fileDeps, left, order, n, c) == {};
  }

  const DEPS: Deps := map[3 := {4, 9}, 4 := {5, 9}, 5 := {4}, 9 := {5}]
  const FILES: set<Path> := {3, 4, 5, 9}

  /** File 9 is forced first. Of the files left two wait on file 4, but file 5 is forced next, on which only one waits. */
  lemma {:induction false} SecondForcedHasFewer()
    ensures var order := Order(DEPS, map[], FILES, FILES);
            && |order| > 1 && order[0] == Step(9, true) && order[1] == Step(5, true) && LeftAt(FILES, order, 1) == {3, 4, 5}
            && Dependents(DEPS, {3, 4, 5}, 5) == {4} && Dependents(DEPS, {3, 4, 5}, 4) == {3, 5}
  {
    WaitingAtFirst();
    WaitingThen();
    FirstCandidates();
    hide Order, Dependents, DepsIn, Candidate;
    assert FILES - {9} == {3, 4, 5};
    OrderForced(DEPS, map[], FILES, FILES, 9);
    OrderForced(DEPS, map[], FILES, {3, 4, 5}, 5);
  }

  lemma {:induction false} WaitingAtFirst()
    ensures Free(DEPS, FILES) == {}
    ensures Dependents(DEPS, FILES, 3) == {} && Dependents(DEPS, FILES, 4) == {3, 5}
    ensures Dependents(DEPS, FILES, 5) == {4, 9} && Dependents(DEPS, FILES, 9) == {3, 4}
  {
    assert DepsIn(DEPS, FILES, 3) == {4, 9};
    assert DepsIn(DEPS, FILES, 4) == {5, 9};
    assert DepsIn(DEPS, FILES, 5) == {4};
    assert DepsIn(DEPS, FILES, 9) == {5};
    hide DepsIn;
  }

  lemma {:induction false} WaitingThen()
    ensures Free(DEPS, {3, 4, 5}) == {} && Dependents(DEPS, {3, 4, 5}, 5) == {4} && Dependents(DEPS, {3, 4, 5}, 4) == {3, 5}
  {
    assert DepsIn(DEPS, {3, 4, 5}, 3) == {4};
    assert DepsIn(DEPS, {3, 4, 5}, 4) == {5};
    assert DepsIn(DEPS, {3, 4, 5}, 5) == {4};
    hide DepsIn;
  }

  lemma {:induction false} FirstCandidates()
    ensures Candidate(DEPS, map[], FILES, FILES, 9) && Candidate(DEPS, map[], FILES, {3, 4, 5}, 5)
  {
    WaitingAtFirst();
    hide Dependents;
    assert |{3, 5}| == |{4, 9}| == |{3, 4}| == 2;
  }

  /** The ranked files depend only on ranked files of lower rank: none of them leads into a cycle. */
  predicate Grounded(fileDeps: Deps, left: set<Path>, rank: map<Path, nat>) {
    forall p, d :: p in rank && d in DepsIn(fileDeps, left, p) ==> d in rank && rank[d] < rank[p]
  }

  lemma {:induction false} LowestIsFree(fileDeps: Deps, left: set<Path>, files: set<Path>, rank: map<Path, nat>, p: Path)
    requires Grounded(fileDeps, left, rank) && files <= left && p in files && p in rank
    ensures Free(fileDeps, files) != {}
    decreases if p in rank then rank[p] else 0
  {
    if DepsIn(fileDeps, files, p) == {} {
      assert p in Free(fileDeps, files);
    } else {
      var d := Member(DepsIn(fileDeps, files, p));
      assert d in DepsIn(fileDeps, left, p);
      LowestIsFree(fileDeps, left, files, rank, d);
    }
  }

  /** A file that leads into no cycle runs before the first forced file; without any cycle nothing is forced. */
  lemma {:induction false} GroundedRunFirst(fileDeps: Deps, ops: map<Path, nat>, left: set<Path>, rank: map<Path, nat>, n: nat, p: Path)
    requires Grounded(fileDeps, left, rank) && p in left && p in rank
    requires n < |Order(fileDeps, ops, left, left)| && Order(fileDeps, ops, left, left)[n].forced
    ensures exists i :: 0 <= i < n && Order(fileDeps, ops, left, left)[i].path == p && !Order(fileDeps, ops, left, left)[i].forced
    decreases n
  {
    var order := Order(fileDeps, ops, left, left);
    OrderSteps(fileDeps, ops, left, left, n);
    var now := LeftAt(left, order, n);
    if p in now {
      LowestIsFree(fileDeps, left, now, rank, p);
    }
    var i :| 0 <= i < n && order[i].path == p;
    if order[i].forced {
      GroundedRunFirst(fileDeps, ops, left, rank, i, p);
    }
  }

  // ---------------------------------------------------------------- the incremental executor

  /** The executor's bookkeeping: files left, what each still waits on, who waits on each, and what became free. */
  datatype Book = Book(left: set<Path>, deps: Deps, dependents: Deps, ready: set<Path>)

  /** Recorded dependencies are those left; recorded dependents are those at the start. */
  predicate BookOk(fileDeps: Deps, all: set<Path>, b: Book) {
    && b.left <= all
    && b.deps.Keys == b.left && (forall p :: p in b.left ==> b.deps[p] == DepsIn(fileDeps, b.left, p))
    && b.dependents.Keys <= b.left
    && forall p :: p in b.left ==> (if p in b.dependents then b.dependents[p] else {}) == Dependents(fileDeps, all, p)
  }

  /** A file executed: drop it, and collect the files that waited only on it. */
  method Finish(path: Path, b: Book, ghost fileDeps: Deps, ghost all: set<Path>) returns (b': Book)
    requires path in b.left && BookOk(fileDeps, all, b)
    ensures BookOk(fileDeps, all, b') && b'.left == b.left - {path}
    ensures forall p :: p in b'.ready <==> p in b.ready || (p in b.left && p != path && DepsIn(fileDeps, b.left, p) == {path})
  {
    var waiters := if path in b.dependents then b.dependents[path] else {};
    var deps, ready := Release(path, waiters, b.deps - {path}, b.ready);
    b' := Book(b.left - {path}, deps, b.dependents - {path}, ready);
    FinishOk(fileDeps, all, b, path, b');
  }

  lemma {:induction false} FinishOne(fileDeps: Deps, all: set<Path>, left: set<Path>, path: Path, p: Path)
    requires path in left && left <= all && p in left && p != path
    ensures DepsIn(fileDeps, left - {path}, p)
            == if p in Dependents(fileDeps, all, path) then DepsIn(fileDeps, left, p) - {path} else DepsIn(fileDeps, left, p)
    ensures DepsIn(fileDeps, left, p) == {path} <==> p in Dependents(fileDeps, all, path) && DepsIn(fileDeps, left, p) - {path} == {}
  {
    FinishDeps(fileDeps, all, left, path);
    hide DepsIn, Dependents;
    WaitsOnlyOn(DepsIn(fileDeps, left, p), path);
  }

  lemma {:induction false} FinishOk(fileDeps: Deps, all: set<Path>, b: Book, path: Path, b': Book)
    requires path in b.left && BookOk(fileDeps, all, b)
    requires b'.left == b.left - {path} && b'.dependents == b.dependents - {path}
    requires Released(path, Dependents(fileDeps, all, path), b.deps - {path}, b.ready, b'.deps, b'.ready)
    ensures BookOk(fileDeps, all, b')
    ensures forall p :: p in b'.ready <==> p in b.ready || (p in b.left && p != path && DepsIn(fileDeps, b.left, p) == {path})
  {
    hide Dependents, DepsIn;
    var waiters := Dependents(fileDeps, all, path);
    forall p ensures p in Freed(path, waiters, b.deps - {path}) <==> p in b.left && p != path && DepsIn(fileDeps, b.left, p) == {path} {
      if p in b.left && p != path {
        FinishOne(fileDeps, all, b.left, path, p);
      }
    }
    forall p | p in b'.left ensures b'.deps[p] == DepsIn(fileDeps, b'.left, p) {
      FinishOne(fileDeps, all, b.left, path, p);
    }
    hide Freed, Without;
  }

  lemma {:induction false} WaitsOnlyOn(deps: set<Path>, path: Path)
    ensures path !in deps ==> deps - {path} == deps
    ensures deps == {path} <==> path in deps && deps - {path} == {}
  {
    if path in deps {
      assert deps == (deps - {path}) + {path};
    }
  }

  function Without(path: Path, waiters: set<Path>, deps: Deps): Deps {
    map p | p in deps :: if p in waiters then deps[p] - {path} else deps[p]
  }

  function Freed(path: Path, waiters: set<Path>, deps: Deps): set<Path> {
    set p | p in deps && p in waiters && deps[p] - {path} == {}
  }

  predicate Released(path: Path, done: set<Path>, deps: Deps, ready: set<Path>, deps': Deps, ready': set<Path>) {
    deps' == Without(path, done, deps) && ready' == ready + Freed(path, done, deps)
  }

  lemma {:induction false} OneMore(path: Path, done: set<Path>, w: Path, deps: Deps, ready: set<Path>, deps': Deps, ready': set<Path>,
                                   deps'': Deps, ready'': set<Path>)
    requires Released(path, done, deps, ready, deps', ready') && w !in done
    requires w !in deps' ==> deps'' == deps' && ready'' == ready'
    requires w in deps' ==> deps'' == deps'[w := deps'[w] - {path}] && ready'' == ready' + (if deps'[w] - {path} == {} then {w} else {})
    ensures Released(path, done + {w}, deps, ready, deps'', ready'')
  {
    assert Freed(path, done + {w}, deps) == Freed(path, done, deps) + (if w in deps && deps[w] - {path} == {} then {w} else {});
  }

  /** The waiters no longer wait on the path; those that waited on nothing else become ready. */
  method Release(path: Path, waiters: set<Path>, deps: Deps, ready: set<Path>) returns (deps': Deps, ready': set<Path>)
    ensures Released(path, waiters, deps, ready, deps', ready')
  {
    deps', ready' := deps, ready;
    var rest := waiters;
    NoneReleased(path, waiters, deps, ready);
    while rest != {}
      invariant rest <= waiters
      invariant Released(path, waiters - rest, deps, ready, deps', ready')
      decreases |rest|
    {
      hide *;
      var waiter := Pick(rest);
      ghost var deps0, ready0 := deps', ready';
      if waiter in deps' {
        deps' := deps'[waiter := deps'[waiter] - {path}];
        if deps'[waiter] == {} {
          ready' := ready' + {waiter};
        }
      }
      OneMore(path, waiters - rest, waiter, deps, ready, deps0, ready0, deps', ready');
      Taken(waiters, rest, waiter);
      rest := rest - {waiter};
    }
    NoneLeft(waiters, rest);
  }

  lemma {:induction false} NoneReleased(path: Path, waiters: set<Path>, deps: Deps, ready: set<Path>)
    ensures Released(path, waiters - waiters, deps, ready, deps, ready)
  {
  }

  lemma {:induction false} FinishDeps(fileDeps: Deps, all: set<Path>, left: set<Path>, path: Path)
    requires path in left && left <= all
    ensures forall p :: p in left && p != path ==> DepsIn(fileDeps, left - {path}, p) == DepsIn(fileDeps, left, p) - {path}
    ensures forall p :: p in left && p != path ==> (path in DepsIn(fileDeps, left, p) <==> p in Dependents(fileDeps, all, path))
  {
  }

  /** Files that are free once `path` has executed: those that were, and those that waited only on it. */
  lemma {:induction false} FreeAfter(fileDeps: Deps, left: set<Path>, path: Path, ready: set<Path>, rest: set<Path>, ready': set<Path>)
    requires path in left && rest <= Free(fileDeps, left) && ready == Free(fileDeps, left) - rest - {path}
    requires path in rest || Free(fileDeps, left) == {}
    requires forall p :: p in ready' <==> p in ready || (p in left && p != path && DepsIn(fileDeps, left, p) == {path})
    ensures rest - {path} <= Free(fileDeps, left - {path})
    ensures ready' == Free(fileDeps, left - {path}) - (rest - {path})
  {
    FinishDeps(fileDeps, left, left, path);
    forall p | p in left && p != path
      ensures p in Free(fileDeps, left - {path}) <==> p in Free(fileDeps, left) || DepsIn(fileDeps, left, p) == {path}
    {
      WaitsOnlyOn(DepsIn(fileDeps, left, p), path);
    }
    hide DepsIn;
    forall p ensures p in ready' <==> p in Free(fileDeps, left - {path}) - (rest - {path}) {
    }
  }

  method Lowest(s: set<Path>) returns (m: Path)
    requires s != {}
    ensures Smallest(s, m)
  {
    m := Pick(s);
    var rest := s - {m};
    while rest != {}
      invariant rest <= s && m in s && forall x :: x in s && x !in rest ==> m <= x
      decreases |rest|
    {
      var x := Pick(rest);
      rest := rest - {x};
      if x < m {
        m := x;
      }
    }
  }

  method Sort(s: set<Path>) returns (r: seq<Path>)
    ensures r == Sorted(s)
  {
    r := [];
    var rest := s;
    while rest != {}
      invariant r + Sorted(rest) == Sorted(s)
      decreases |rest|
    {
      var m := Lowest(rest);
      SortedHead(rest, m);
      Associative(r, [m], Sorted(rest - {m}));
      r := r + [m];
      rest := rest - {m};
    }
  }

  lemma {:induction false} SortedHead(s: set<Path>, m: Path)
    requires Smallest(s, m)
    ensures Sorted(s) == [m] + Sorted(s - {m})
  {
    var n := Sorted(s)[0];
    assert Smallest(s, n);
    assert m == n;
  }

  lemma {:induction false} Associative<T>(a: seq<T>, b: seq<T>, c: seq<T>)
    ensures a + (b + c) == (a + b) + c
  {
  }

  /** The file to force. */
  method Best(fileDeps: Deps, ops: map<Path, nat>, ghost all: set<Path>, b: Book) returns (c: Path)
    requires b.left != {} && BookOk(fileDeps, all, b)
    ensures Candidate(fileDeps, ops, all, b.left, c)
  {
    hide Dependents, DepsIn;
    c := Pick(b.left);
    var rest := b.left - {c};
    while rest != {}
      invariant rest <= b.left && c in b.left && forall k :: k in b.left && k !in rest ==> Rather(fileDeps, ops, all, k, c)
      decreases |rest|
    {
      var k := Pick(rest);
      rest := rest - {k};
      var waiting, most := if k in b.dependents then |b.dependents[k]| else 0, if c in b.dependents then |b.dependents[c]| else 0;
      if most < waiting || (most == waiting && (OpCount(ops, k) < OpCount(ops, c) || (OpCount(ops, k) == OpCount(ops, c) && c <= k))) {
        c := k;
      }
    }
  }

  lemma {:induction false} OrderForced(fileDeps: Deps, ops: map<Path, nat>, all: set<Path>, left: set<Path>, c: Path)
    requires Free(fileDeps, left) == {} && Candidate(fileDeps, ops, all, left, c)
    ensures Order(fileDeps, ops, all, left) == [Step(c, true)] + Order(fileDeps, ops, all, left - {c})
  {
    var d := Order(fileDeps, ops, all, left)[0].path;
    OneCandidate(fileDeps, ops, all, left, c, d);
  }

  lemma {:induction false} OrderWave(fileDeps: Deps, ops: map<Path, nat>, all: set<Path>, left: set<Path>, wave: seq<Path>)
    requires Free(fileDeps, left) != {} && wave == Sorted(Free(fileDeps, left))
    ensures Order(fileDeps, ops, all, left) == Clean(wave) + Order(fileDeps, ops, all, left - Free(fileDeps, left))
  {
    var p := Member(Free(fileDeps, left));
    assert p in left;
  }

  lemma {:induction false} CleanHead(paths: seq<Path>)
    requires paths != []
    ensures Clean(paths) == [Step(paths[0], false)] + Clean(paths[1..])
  {
  }

  lemma {:induction false} NoMore<T>(s: set<T>, x: T)
    ensures s - ({} - {x}) == s
  {
  }

  lemma {:induction false} SortedTail(s: set<Path>)
    requires s != {}
    ensures Sorted(s) != [] && Smallest(s, Sorted(s)[0]) && Sorted(s)[1..] == Sorted(s - {Sorted(s)[0]})
  {
  }

  /** Running the next file of the wave moves it from the files to come to the files executed. */
  lemma {:induction false} WaveStep(fileDeps: Deps, ops: map<Path, nat>, all: set<Path>, left: set<Path>, order: seq<Step>, rest: set<Path>, p: Path)
    requires rest != {} && rest <= left && p == Sorted(rest)[0]
    ensures order + (Clean(Sorted(rest)) + Order(fileDeps, ops, all, left - rest))
            == (order + [Step(p, false)]) + (Clean(Sorted(rest - {p})) + Order(fileDeps, ops, all, (left - {p}) - (rest - {p})))
  {
    SortedTail(rest);
    CleanHead(Sorted(rest));
    LessOne(left, rest, p);
    hide *;
    var tail, after := Clean(Sorted(rest - {p})), Order(fileDeps, ops, all, left - rest);
    Associative([Step(p, false)], tail, after);
    Associative(order, [Step(p, false)], tail + after);
  }

  lemma {:induction false} LessOne<T>(left: set<T>, rest: set<T>, p: T)
    requires p in rest
    ensures (left - {p}) - (rest - {p}) == left - rest
  {
  }

  /** Within a wave: the files of the wave still to run are free, and the others that became free are collected. */
  ghost predicate WaveInv(fileDeps: Deps, all: set<Path>, b: Book, rest: set<Path>) {
    BookOk(fileDeps, all, b) && rest <= Free(fileDeps, b.left) && b.ready == Free(fileDeps, b.left) - rest
  }

  lemma {:induction false} NextOfWave(fileDeps: Deps, all: set<Path>, b: Book, rest: set<Path>)
    requires WaveInv(fileDeps, all, b, rest) && Sorted(rest) != []
    ensures BookOk(fileDeps, all, b) && Sorted(rest)[0] in rest && rest <= b.left
    ensures Sorted(rest)[1..] == Sorted(rest - {Sorted(rest)[0]})
  {
    assert rest != {};
    SortedTail(rest);
  }

  lemma {:induction false} WaveInvStep(fileDeps: Deps, all: set<Path>, b: Book, rest: set<Path>, p: Path, b': Book)
    requires WaveInv(fileDeps, all, b, rest) && p in rest && BookOk(fileDeps, all, b') && b'.left == b.left - {p}
    requires forall q :: q in b'.ready <==> q in b.ready || (q in b.left && q != p && DepsIn(fileDeps, b.left, q) == {p})
    ensures WaveInv(fileDeps, all, b', rest - {p}) && b'.left < b.left
  {
    assert b.ready == Free(fileDeps, b.left) - rest - {p};
    FreeAfter(fileDeps, b.left, p, b.ready, rest, b'.ready);
    assert p in b.left;
  }

  lemma {:induction false} Drained(rest: set<Path>, order: seq<Step>, fileDeps: Deps, ops: map<Path, nat>, all: set<Path>, b: Book)
    requires Sorted(rest) == [] && WaveInv(fileDeps, all, b, rest)
    ensures BookOk(fileDeps, all, b) && b.ready == Free(fileDeps, b.left)
    ensures order + (Clean(Sorted(rest)) + Order(fileDeps, ops, all, b.left - rest)) == order + Order(fileDeps, ops, all, b.left)
  {
    if rest != {} {
      SortedTail(rest);
    }
    assert b.left - rest == b.left;
    assert Clean(Sorted(rest)) == [];
    assert Clean(Sorted(rest)) + Order(fileDeps, ops, all, b.left) == Order(fileDeps, ops, all, b.left);
  }

  lemma {:induction false} WaveStart(fileDeps: Deps, all: set<Path>, b: Book)
    requires BookOk(fileDeps, all, b) && b.ready == Free(fileDeps, b.left)
    ensures WaveInv(fileDeps, all, b.(ready := {}), b.ready)
  {
    hide DepsIn, Dependents;
    assert Free(fileDeps, b.left) - b.ready == {};
  }

  /** Run every free file, in sorted order. */
  method RunWave(ghost fileDeps: Deps, ghost ops: map<Path, nat>, ghost all: set<Path>, b: Book, order: seq<Step>)
    returns (order': seq<Step>, b': Book)
    requires BookOk(fileDeps, all, b) && b.ready == Free(fileDeps, b.left) && b.ready != {}
    ensures |b'.left| < |b.left|
    ensures BookOk(fileDeps, all, b') && b'.ready == Free(fileDeps, b'.left)
    ensures order' + Order(fileDeps, ops, all, b'.left) == order + Order(fileDeps, ops, all, b.left)
  {
    var wave := Sort(b.ready);
    OrderWave(fileDeps, ops, all, b.left, wave);
    order', b' := order, b.(ready := {});
    ghost var rest := b.ready;
    WaveStart(fileDeps, all, b);
    while wave != []
      invariant WaveInv(fileDeps, all, b', rest) && b'.left <= b.left && wave == Sorted(rest)
      invariant order' + (Clean(Sorted(rest)) + Order(fileDeps, ops, all, b'.left - rest)) == order + Order(fileDeps, ops, all, b.left)
      invariant rest == b.ready || b'.left < b.left
      decreases |wave|
    {
      hide *;
      var p := wave[0];
      NextOfWave(fileDeps, all, b', rest);
      WaveStep(fileDeps, ops, all, b'.left, order', rest, p);
      var b'' := Finish(p, b', fileDeps, all);
      WaveInvStep(fileDeps, all, b', rest, p, b'');
      order', b', rest, wave := order' + [Step(p, false)], b'', rest - {p}, wave[1..];
    }
    Drained(rest, order', fileDeps, ops, all, b');
    Smaller(b'.left, b.left);
  }

  /** Break a deadlock by one forced file. */
  method Force(ghost fileDeps: Deps, ghost ops: map<Path, nat>, ghost all: set<Path>, b: Book, order: seq<Step>, c: Path)
    returns (order': seq<Step>, b': Book)
    requires BookOk(fileDeps, all, b) && b.ready == {} && Free(fileDeps, b.left) == {} && Candidate(fileDeps, ops, all, b.left, c)
    ensures |b'.left| < |b.left|
    ensures BookOk(fileDeps, all, b') && b'.ready == Free(fileDeps, b'.left)
    ensures order' + Order(fileDeps, ops, all, b'.left) == order + Order(fileDeps, ops, all, b.left)
  {
    OrderForced(fileDeps, ops, all, b.left, c);
    assert c in b.left;
    hide Free, Order, BookOk, DepsIn, Candidate;
    b' := Finish(c, b, fileDeps, all);
    FreeAfter(fileDeps, b.left, c, {}, {}, b'.ready);
    order' := order + [Step(c, true)];
    Associative(order, [Step(c, true)], Order(fileDeps, ops, all, b'.left));
    Taken(b.left, b.left, c);
    Smaller(b'.left, b.left);
    NoMore(Free(fileDeps, b'.left), c);
  }

  lemma {:induction false} StartOk(fileDeps: Deps, files: set<Path>, b: Book)
    requires b.left == files && b.deps == (map p | p in files :: DepsIn(fileDeps, files, p))
    requires b.dependents == (map p | p in files :: Dependents(fileDeps, files, p)) && b.ready == (set p | p in files && b.deps[p] == {})
    ensures BookOk(fileDeps, files, b) && b.ready == Free(fileDeps, files)
  {
  }

  /** The files left over, executed: the order the incremental bookkeeping computes. */
  method Execute(fileDeps: Deps, ops: map<Path, nat>, files: set<Path>) returns (order: seq<Step>)
    ensures order == Order(fileDeps, ops, files, files)
  {
    var deps: Deps := map p | p in files :: DepsIn(fileDeps, files, p);
    var dependents: Deps := map p | p in files :: Dependents(fileDeps, files, p);
    var b := Book(files, deps, dependents, set p | p in files && deps[p] == {});
    StartOk(fileDeps, files, b);
    order := [];
    while b.left != {}
      invariant BookOk(fileDeps, files, b) && b.ready == Free(fileDeps, b.left)
      invariant order + Order(fileDeps, ops, files, b.left) == Order(fileDeps, ops, files, files)
      decreases |b.left|
    {
      hide *;
      if b.ready == {} {
        var c := Best(fileDeps, ops, files, b);
        order, b := Force(fileDeps, ops, files, b, order, c);
      } else {
        order, b := RunWave(fileDeps, ops, files, b, order);
      }
    }
  }
}
