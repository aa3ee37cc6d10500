/** Ordering changed files (main.py, `order_changed_files`): headers before the files that include them, as far as the
    include graph allows, then everything else. */
module HeaderOrder {
  import opened Basics
  import W = Waves

  type Path = int

  /** One changed file. A deleted header is not read, so it includes nothing. */
  datatype Item = Item(path: Path, isHeader: bool, deleted: bool)

  /** For every header, the paths each of its includes may mean, in search order. */
  type Includes = Path -> seq<seq<Path>>

  type Graph = map<Path, set<Path>>

  function SetOf(q: seq<Path>): set<Path> {
    set p | p in q
  }

  /** The header an include means: the first candidate that is a changed header. */
  function Target(headers: set<Path>, candidates: seq<Path>): Option<Path> {
    if candidates == [] then None else if candidates[0] in headers then Some(candidates[0]) else Target(headers, candidates[1..])
  }

  /** The changed headers the includes of `path` mean, itself excepted. */
  function Targets(headers: set<Path>, path: Path, directives: seq<seq<Path>>): set<Path> {
    if directives == [] then {}
    else
      var n := |directives| - 1;
      var before, t := Targets(headers, path, directives[..n]), Target(headers, directives[n]);
      if t.None? || t.value == path then before else before + {t.value}
  }

  function DepsOf(item: Item, headers: set<Path>, includes: Includes): set<Path> {
    if item.deleted then {} else Targets(headers, item.path, includes(item.path))
  }

  lemma {:induction false} TargetIn(headers: set<Path>, candidates: seq<Path>)
    ensures Target(headers, candidates).Some? ==> Target(headers, candidates).value in headers
    decreases |candidates|
  {
    if candidates != [] {
      TargetIn(headers, candidates[1..]);
    }
  }

  lemma {:induction false} TargetsIn(headers: set<Path>, path: Path, directives: seq<seq<Path>>)
    ensures Targets(headers, path, directives) <= headers && path !in Targets(headers, path, directives)
    decreases |directives|
  {
    if directives != [] {
      TargetsIn(headers, path, directives[..|directives|-1]);
      TargetIn(headers, directives[|directives|-1]);
    }
  }

  // ---------------------------------------------------------------- Kahn's algorithm

  /** The emitted headers, those waiting to be emitted, and how many included headers each still waits for. */
  datatype Kahn = Kahn(sorted: seq<Path>, queue: seq<Path>, degree: map<Path, int>)

  /** `deps` maps every header to the changed headers it includes. */
  predicate Closed(deps: Graph) {
    forall p, d :: p in deps && d in deps[p] ==> d in deps
  }

  predicate DegreeOk(deps: Graph, k: Kahn, p: Path) {
    p in deps ==> p in k.degree && k.degree[p] == |deps[p] - SetOf(k.sorted)|
  }

  predicate QueuedOk(deps: Graph, k: Kahn, p: Path) {
    p in k.queue <==> p in deps && p !in k.sorted && deps[p] - SetOf(k.sorted) == {}
  }

  /** Every emitted header comes after the headers it includes. */
  predicate EmittedOk(deps: Graph, sorted: seq<Path>, i: nat)
    requires i < |sorted|
  {
    sorted[i] in deps && deps[sorted[i]] <= SetOf(sorted[..i])
  }

  ghost predicate KahnOk(deps: Graph, k: Kahn) {
    && Closed(deps) && Distinct(k.sorted) && Distinct(k.queue)
    && (forall p :: p in deps ==> DegreeOk(deps, k, p))
    && (forall p :: QueuedOk(deps, k, p))
    && forall i :: 0 <= i < |k.sorted| ==> EmittedOk(deps, k.sorted, i)
  }

  /** The includers of each header. */
  ghost predicate Inverse(deps: Graph, graph: Graph) {
    && graph.Keys == deps.Keys
    && (forall t, p :: t in graph && p in graph[t] ==> p in deps)
    && forall t, p :: t in deps && p in deps ==> (p in graph[t] <==> t in deps[p])
  }

  function Lowered(degree: map<Path, int>, neighbors: set<Path>): map<Path, int> {
    map p | p in degree :: if p in neighbors then degree[p] - 1 else degree[p]
  }

  /** The neighbors wait for one header less; those that wait for none are queued. */
  method Lower(degree: map<Path, int>, neighbors: set<Path>, queue: seq<Path>) returns (degree': map<Path, int>, queue': seq<Path>)
    requires neighbors <= degree.Keys
    requires Distinct(queue) && forall p :: p in queue ==> p !in neighbors
    ensures degree' == Lowered(degree, neighbors)
    ensures Distinct(queue') && forall p :: p in queue' <==> p in queue || (p in neighbors && degree[p] == 1)
  {
    degree', queue' := degree, queue;
    var rest := neighbors;
    LoweredNone(degree, neighbors);
    while rest != {}
      invariant rest <= neighbors && degree' == Lowered(degree, neighbors - rest)
      invariant Distinct(queue') && forall p :: p in queue' <==> p in queue || (p in neighbors && p !in rest && degree[p] == 1)
      decreases |rest|
    {
      var p := Pick(rest);
      LoweredOne(degree, neighbors - rest, p);
      Taken(neighbors, rest, p);
      hide Lowered;
      rest := rest - {p};
      degree' := degree'[p := degree'[p] - 1];
      if degree'[p] == 0 {
        queue' := queue' + [p];
      }
    }
    NoneLeft(neighbors, rest);
  }

  lemma {:induction false} LoweredNone(degree: map<Path, int>, neighbors: set<Path>)
    ensures Lowered(degree, neighbors - neighbors) == degree
  {
  }

  lemma {:induction false} LoweredOne(degree: map<Path, int>, done: set<Path>, p: Path)
    requires p in degree && p !in done
    ensures p in Lowered(degree, done) && Lowered(degree, done)[p] == degree[p]
    ensures Lowered(degree, done + {p}) == Lowered(degree, done)[p := degree[p] - 1]
  {
  }

  lemma {:induction false} Smaller<T>(s: set<T>, x: T)
    ensures x !in s ==> s - {x} == s
    ensures x in s ==> |s - {x}| == |s| - 1
    ensures s != {} ==> (x in s && |s| == 1 <==> s - {x} == {})
  {
    if x in s {
      assert s == (s - {x}) + {x};
    }
  }

  lemma {:induction false} SetOfMore(q: seq<Path>, p: Path)
    ensures SetOf(q + [p]) == SetOf(q) + {p}
  {
  }

  /** Emitting the oldest queued header keeps the bookkeeping right. */
  lemma {:induction false} EmitOne(deps: Graph, graph: Graph, k: Kahn, degree': map<Path, int>, queue': seq<Path>)
    requires KahnOk(deps, k) && Inverse(deps, graph) && k.queue != [] && k.queue[0] in graph
    requires degree' == Lowered(k.degree, graph[k.queue[0]]) && Distinct(queue')
    requires forall p :: p in queue' <==> p in k.queue[1..] || (p in graph[k.queue[0]] && p in k.degree && k.degree[p] == 1)
    ensures KahnOk(deps, Kahn(k.sorted + [k.queue[0]], queue', degree'))
  {
    var node := k.queue[0];
    var k' := Kahn(k.sorted + [node], queue', degree');
    SetOfMore(k.sorted, node);
    assert QueuedOk(deps, k, node);
    forall p ensures (p in deps ==> DegreeOk(deps, k', p)) && QueuedOk(deps, k', p) {
      EmittedDeps(deps, k, p);
      EmitOneAt(deps, graph, k, k', p);
    }
    EmittedMore(deps, k.sorted, node);
    hide DegreeOk, QueuedOk, EmittedOk, Inverse, Lowered;
  }

  lemma {:induction false} EmittedMore(deps: Graph, sorted: seq<Path>, node: Path)
    requires (forall i :: 0 <= i < |sorted| ==> EmittedOk(deps, sorted, i)) && node in deps && deps[node] - SetOf(sorted) == {}
    ensures forall i :: 0 <= i < |sorted + [node]| ==> EmittedOk(deps, sorted + [node], i)
  {
    var sorted' := sorted + [node];
    forall i | 0 <= i < |sorted'| ensures EmittedOk(deps, sorted', i) {
      if i < |sorted| {
        assert EmittedOk(deps, sorted, i);
        assert sorted'[..i] == sorted[..i];
      } else {
        assert sorted'[..i] == sorted;
        NoneBeyond(deps[node], SetOf(sorted));
      }
    }
  }

  lemma {:induction false} NoneBeyond<T>(s: set<T>, t: set<T>)
    requires s - t == {}
    ensures s <= t
  {
    forall x | x in s ensures x in t {
      assert x !in t ==> x in s - t;
    }
  }

  lemma {:induction false} EmittedDeps(deps: Graph, k: Kahn, p: Path)
    requires forall i :: 0 <= i < |k.sorted| ==> EmittedOk(deps, k.sorted, i)
    ensures p in k.sorted ==> p in deps && deps[p] - SetOf(k.sorted) == {}
  {
    if p in k.sorted {
      var i :| 0 <= i < |k.sorted| && k.sorted[i] == p;
      assert EmittedOk(deps, k.sorted, i);
      assert SetOf(k.sorted[..i]) <= SetOf(k.sorted);
    }
  }

  lemma {:induction false} EmitOneAt(deps: Graph, graph: Graph, k: Kahn, k': Kahn, p: Path)
    requires Inverse(deps, graph) && k.queue != [] && k.queue[0] in deps && Distinct(k.queue) && k.queue[0] !in k.sorted
    requires (p in deps ==> DegreeOk(deps, k, p)) && QueuedOk(deps, k, p) && deps[k.queue[0]] - SetOf(k.sorted) == {}
    requires k'.sorted == k.sorted + [k.queue[0]] && k'.degree == Lowered(k.degree, graph[k.queue[0]])
    requires p in deps && p in k.sorted ==> deps[p] - SetOf(k.sorted) == {}
    requires p in k'.queue <==> p in k.queue[1..] || (p in graph[k.queue[0]] && p in k.degree && k.degree[p] == 1)
    ensures (p in deps ==> DegreeOk(deps, k', p)) && QueuedOk(deps, k', p)
  {
    var node := k.queue[0];
    SetOfMore(k.sorted, node);
    assert p in k.queue <==> p == node || p in k.queue[1..];
    if p in deps {
      var before := deps[p] - SetOf(k.sorted);
      Smaller(before, node);
      assert deps[p] - SetOf(k'.sorted) == before - {node};
      assert p in graph[node] <==> node in deps[p];
      assert node in deps[p] <==> node in before;
      hide Inverse, SetOf;
      if before == {} {
        assert p in k'.queue <==> p in k.queue[1..];
      } else {
        assert p != node && p !in k.sorted;
      }
    }
  }

  /** The loop: emit queued headers until none is left. */
  method Sort(ghost deps: Graph, graph: Graph, degree: map<Path, int>, queue: seq<Path>) returns (sorted: seq<Path>)
    requires KahnOk(deps, Kahn([], queue, degree)) && Inverse(deps, graph)
    ensures exists k :: KahnOk(deps, k) && k.queue == [] && k.sorted == sorted
  {
    sorted := [];
    var waiting, left := queue, degree;
    while waiting != []
      invariant KahnOk(deps, Kahn(sorted, waiting, left))
      decreases |deps.Keys - SetOf(sorted)|
    {
      var node := waiting[0];
      ghost var k := Kahn(sorted, waiting, left);
      FrontIsNew(deps, graph, k);
      var left', waiting' := Lower(left, graph[node], waiting[1..]);
      EmitOne(deps, graph, k, left', waiting');
      hide KahnOk;
      SetOfMore(sorted, node);
      Taken(deps.Keys, deps.Keys - SetOf(sorted), node);
      FewerLeft(deps.Keys, SetOf(sorted), node);
      sorted, waiting, left := sorted + [node], waiting', left';
    }
    assert KahnOk(deps, Kahn(sorted, [], left));
  }

  lemma {:induction false} FewerLeft<T>(all: set<T>, done: set<T>, x: T)
    requires x in all && x !in done
    ensures |all - (done + {x})| < |all - done|
  {
    assert all - (done + {x}) == (all - done) - {x};
  }

  lemma {:induction false} FrontIsNew(deps: Graph, graph: Graph, k: Kahn)
    requires KahnOk(deps, k) && Inverse(deps, graph) && k.queue != []
    ensures k.queue[0] in deps && k.queue[0] in graph && k.queue[0] !in SetOf(k.sorted)
    ensures graph[k.queue[0]] <= k.degree.Keys && Distinct(k.queue[1..])
    ensures forall p :: p in k.queue[1..] ==> p !in graph[k.queue[0]]
  {
    var node := k.queue[0];
    assert QueuedOk(deps, k, node);
    forall p | p in graph[node] ensures p in k.degree && p !in k.queue {
      assert DegreeOk(deps, k, p) && QueuedOk(deps, k, p);
      assert node in deps[p] - SetOf(k.sorted);
    }
    forall p | p in k.queue[1..] ensures p in k.queue {
    }
  }

  // ---------------------------------------------------------------- cycles

  /** A walk along includes that comes back to a header it has been at. */
  predicate LeadsToCycle(deps: Graph, walk: seq<Path>, i: nat, j: nat) {
    i < j < |walk| && walk[i] == walk[j] && Follows(deps, walk)
  }

  predicate Follows(deps: Graph, walk: seq<Path>) {
    forall n :: 0 <= n < |walk| - 1 ==> walk[n] in deps && walk[n + 1] in deps[walk[n]]
  }

  /** The emitted headers are ranked by their position: no walk from one of them comes back. */
  lemma {:induction false} EmittedNoCycle(deps: Graph, k: Kahn, walk: seq<Path>, i: nat, j: nat)
    requires KahnOk(deps, k) && walk != [] && walk[0] in k.sorted && Follows(deps, walk) && i < j < |walk|
    ensures walk[i] != walk[j]
  {
    var p0 :| 0 <= p0 < |k.sorted| && k.sorted[p0] == walk[0];
    assert forall n :: 0 <= n < |k.sorted| ==> EmittedOk(deps, k.sorted, n);
    assert Distinct(k.sorted);
    hide KahnOk;
    var pi := Later(deps, k.sorted, walk, 0, i, p0);
    var pj := Later(deps, k.sorted, walk, i, j, pi);
  }

  /** Along a walk positions go down. */
  lemma {:induction false} Later(deps: Graph, sorted: seq<Path>, walk: seq<Path>, i: nat, j: nat, pi: nat) returns (pj: nat)
    requires (forall n :: 0 <= n < |sorted| ==> EmittedOk(deps, sorted, n)) && Follows(deps, walk)
    requires i <= j < |walk| && pi < |sorted| && sorted[pi] == walk[i]
    ensures pj < |sorted| && sorted[pj] == walk[j] && pj <= pi && (i < j ==> pj < pi)
    decreases j
  {
    if i == j {
      pj := pi;
    } else {
      var p := Later(deps, sorted, walk, i, j - 1, pi);
      assert walk[j] in deps[walk[j - 1]];
      pj := StepDown(deps, sorted, p, walk[j]);
    }
  }

  lemma {:induction false} StepDown(deps: Graph, sorted: seq<Path>, at: nat, d: Path) returns (p: nat)
    requires at < |sorted| && EmittedOk(deps, sorted, at) && d in deps[sorted[at]]
    ensures p < at && sorted[p] == d
  {
    assert d in SetOf(sorted[..at]);
    p :| 0 <= p < at && sorted[..at][p] == d;
  }

  lemma {:induction false} WalkAmongLeft(deps: Graph, k: Kahn, p: Path, n: nat) returns (walk: seq<Path>)
    requires KahnOk(deps, k) && k.queue == [] && p in deps && p !in k.sorted
    ensures |walk| == n + 1 && walk[0] == p && forall m :: 0 <= m <= n ==> walk[m] in deps && walk[m] !in k.sorted
    ensures forall m :: 0 <= m < n ==> walk[m + 1] in deps[walk[m]]
    decreases n
  {
    if n == 0 {
      walk := [p];
    } else {
      walk := WalkAmongLeft(deps, k, p, n - 1);
      var last := walk[n - 1];
      assert QueuedOk(deps, k, last);
      var d := Member(deps[last] - SetOf(k.sorted));
      walk := walk + [d];
    }
  }

  /** A header that was not emitted depends on a cycle. */
  lemma {:induction false} LeftLeadsToCycle(deps: Graph, k: Kahn, p: Path) returns (walk: seq<Path>, i: nat, j: nat)
    requires KahnOk(deps, k) && k.queue == [] && p in deps && p !in k.sorted
    ensures walk != [] && walk[0] == p && LeadsToCycle(deps, walk, i, j)
  {
    walk := WalkAmongLeft(deps, k, p, |deps.Keys|);
    i, j := W.Repeats(walk, deps.Keys);
  }

  // ---------------------------------------------------------------- the whole order

  function Headers(items: seq<Item>): seq<Item> {
    if items == [] then [] else var n := |items| - 1; if items[n].isHeader then Headers(items[..n]) + [items[n]] else Headers(items[..n])
  }

  function Others(items: seq<Item>): seq<Item> {
    if items == [] then [] else var n := |items| - 1; if items[n].isHeader then Others(items[..n]) else Others(items[..n]) + [items[n]]
  }

  function Paths(items: seq<Item>): (r: seq<Path>)
    ensures |r| == |items| && forall i :: 0 <= i < |items| ==> r[i] == items[i].path
  {
    seq(|items|, i requires 0 <= i < |items| => items[i].path)
  }

  /** The items whose paths are not in `seen`, in order. */
  function Unseen(items: seq<Item>, seen: set<Path>): seq<Item> {
    if items == [] then []
    else var n := |items| - 1; if items[n].path in seen then Unseen(items[..n], seen) else Unseen(items[..n], seen) + [items[n]]
  }

  /** Every changed header with the changed headers it includes. */
  ghost predicate IsGraph(headers: seq<Item>, includes: Includes, deps: Graph) {
    && (forall p :: p in deps <==> p in Paths(headers))
    && forall i :: 0 <= i < |headers| ==> headers[i].path in deps && deps[headers[i].path] == DepsOf(headers[i], SetOf(Paths(headers)), includes)
  }

  /** The graph and the degrees describe the dependencies recorded so far. */
  ghost predicate Built(sofar: Graph, graph: Graph, degree: map<Path, int>) {
    && Inverse(sofar, graph) && degree.Keys == sofar.Keys
    && forall p :: p in sofar ==> degree[p] == |sofar[p]|
  }

  lemma {:induction false} AddEdge(sofar: Graph, graph: Graph, degree: map<Path, int>, p: Path, t: Path)
    requires Built(sofar, graph, degree) && p in sofar && t in sofar && t !in sofar[p]
    ensures Built(sofar[p := sofar[p] + {t}], graph[t := graph[t] + {p}], degree[p := degree[p] + 1])
  {
  }

  lemma {:induction false} KnownEdge(sofar: Graph, graph: Graph, degree: map<Path, int>, p: Path, t: Path)
    requires Built(sofar, graph, degree) && p in sofar && t in sofar
    ensures t in graph && p in degree && (p in graph[t] <==> t in sofar[p])
    ensures t in sofar[p] ==> sofar[p := sofar[p] + {t}] == sofar
  {
    if t in sofar[p] {
      assert sofar[p] + {t} == sofar[p];
    }
  }

  /** Record the includes of one header. */
  method AddIncludes(headers: set<Path>, path: Path, directives: seq<seq<Path>>, graph: Graph, degree: map<Path, int>, ghost sofar: Graph)
    returns (graph': Graph, degree': map<Path, int>, ghost sofar': Graph)
    requires Built(sofar, graph, degree) && sofar.Keys == headers && path in headers && sofar[path] == {}
    ensures Built(sofar', graph', degree') && sofar' == sofar[path := Targets(headers, path, directives)]
  {
    graph', degree', sofar' := graph, degree, sofar;
    for j := 0 to |directives|
      invariant Built(sofar', graph', degree') && sofar' == sofar[path := Targets(headers, path, directives[..j])]
    {
      hide Built, Targets, Target;
      TargetsMore(headers, path, directives, j);
      TargetIn(headers, directives[j]);
      var target := Target(headers, directives[j]);
      if target.Some? && target.value != path {
        graph', degree', sofar' := Record(path, target.value, graph', degree', sofar');
      }
      SamePath(sofar, sofar', path, Targets(headers, path, directives[..j + 1]));
    }
    assert directives[..|directives|] == directives;
  }

  lemma {:induction false} SamePath(sofar: Graph, sofar': Graph, path: Path, targets: set<Path>)
    requires path in sofar && path in sofar' && sofar'[path] == targets && sofar'.Keys == sofar.Keys
    requires forall p :: p in sofar && p != path ==> sofar'[p] == sofar[p]
    ensures sofar' == sofar[path := targets]
  {
    var expected := sofar[path := targets];
    assert forall p :: p in expected <==> p in sofar.Keys;
    assert forall p :: p in sofar' <==> p in sofar'.Keys;
    assert forall p :: p in expected ==> sofar'[p] == expected[p];
  }

  lemma {:induction false} TargetsMore(headers: set<Path>, path: Path, directives: seq<seq<Path>>, j: nat)
    requires j < |directives|
    ensures var t := Target(headers, directives[j]);
            Targets(headers, path, directives[..j + 1])
            == if t.None? || t.value == path then Targets(headers, path, directives[..j]) else Targets(headers, path, directives[..j]) + {t.value}
  {
    var upTo := directives[..j + 1];
    TargetsLast(headers, path, upTo);
    assert upTo[..|upTo| - 1] == directives[..j] && upTo[|upTo| - 1] == directives[j];
  }

  lemma {:induction false} TargetsLast(headers: set<Path>, path: Path, directives: seq<seq<Path>>)
    requires directives != []
    ensures var n := |directives| - 1; var t := Target(headers, directives[n]);
            Targets(headers, path, directives)
            == if t.None? || t.value == path then Targets(headers, path, directives[..n]) else Targets(headers, path, directives[..n]) + {t.value}
  {
  }

  method Record(path: Path, t: Path, graph: Graph, degree: map<Path, int>, ghost sofar: Graph)
    returns (graph': Graph, degree': map<Path, int>, ghost sofar': Graph)
    requires Built(sofar, graph, degree) && path in sofar && t in sofar
    ensures Built(sofar', graph', degree') && sofar' == sofar[path := sofar[path] + {t}]
  {
    KnownEdge(sofar, graph, degree, path, t);
    graph', degree', sofar' := graph, degree, sofar[path := sofar[path] + {t}];
    if path !in graph[t] {
      AddEdge(sofar, graph, degree, path, t);
      graph', degree' := graph[t := graph[t] + {path}], degree[path := degree[path] + 1];
    }
  }

  lemma {:induction false} Included(item: Item, headers: set<Path>, includes: Includes)
    ensures DepsOf(item, headers, includes) == if item.deleted then {} else Targets(headers, item.path, includes(item.path))
  {
  }

  lemma {:induction false} NoneBuilt(sofar: Graph, graph: Graph, degree: map<Path, int>)
    requires graph == sofar && degree.Keys == sofar.Keys && forall p :: p in sofar ==> sofar[p] == {} && degree[p] == 0
    ensures Built(sofar, graph, degree)
  {
  }

  /** The graph of the changed headers, and how many headers each of them includes. */
  method BuildGraph(headers: seq<Item>, includes: Includes) returns (graph: Graph, degree: map<Path, int>, ghost deps: Graph)
    requires Distinct(Paths(headers))
    ensures IsGraph(headers, includes, deps) && Built(deps, graph, degree)
    ensures CountsIncludes(headers, includes, graph, degree)
    ensures forall i, j :: 0 <= i < |headers| && 0 <= j < |headers| ==>
              headers[j].path in graph && (headers[i].path in graph[headers[j].path] <==> IncludesHeader(headers, includes, i, j))
  {
    hide Built, DepsOf, RecordedUpTo, IsGraph, Targets, IncludesHeader, CountsIncludes;
    var paths := SetOf(Paths(headers));
    graph, degree, deps := map p | p in paths :: {}, map p | p in paths :: 0, map p | p in paths :: {};
    NoneBuilt(deps, graph, degree);
    NoneRecorded(headers, includes, deps);
    for h := 0 to |headers|
      invariant Built(deps, graph, degree) && RecordedUpTo(headers, includes, deps, h)
    {
      var item := headers[h];
      RecordNext(headers, includes, deps, h);
      if !item.deleted {
        graph, degree, deps := AddIncludes(paths, item.path, includes(item.path), graph, degree, deps);
      }
    }
    RecordedAll(headers, includes, deps);
    Counted(headers, includes, deps, graph, degree);
    forall i, j | 0 <= i < |headers| && 0 <= j < |headers|
      ensures headers[j].path in graph && (headers[i].path in graph[headers[j].path] <==> IncludesHeader(headers, includes, i, j))
    {
      DepsAre(headers, includes, i, j);
      ListedUnder(headers, includes, graph, degree, i, j);
    }
  }

  lemma {:induction false} ListedUnder(headers: seq<Item>, includes: Includes, graph: Graph, degree: map<Path, int>, i: nat, j: nat)
    requires CountsIncludes(headers, includes, graph, degree) && i < |headers| && j < |headers|
    ensures headers[j].path in graph
    ensures headers[i].path in graph[headers[j].path] <==> headers[j].path in DepsOf(headers[i], SetOf(Paths(headers)), includes)
  {
    hide DepsOf;
    assert Paths(headers)[j] in Paths(headers);
  }

  /** One of the header's includes names the other header, and none of its earlier candidates is a changed header. */
  ghost predicate IncludesHeader(headers: seq<Item>, includes: Includes, i: nat, j: nat)
    requires i < |headers| && j < |headers|
  {
    !headers[i].deleted && headers[i].path != headers[j].path && exists d, k :: Names(headers, includes(headers[i].path), d, k, headers[j].path)
  }

  predicate Names(headers: seq<Item>, directives: seq<seq<Path>>, d: nat, k: nat, path: Path) {
    && d < |directives| && k < |directives[d]| && directives[d][k] == path
    && forall m, h :: 0 <= m < k && 0 <= h < |headers| ==> directives[d][m] != headers[h].path
  }

  lemma {:induction false} DepsAre(headers: seq<Item>, includes: Includes, i: nat, j: nat)
    requires i < |headers| && j < |headers|
    ensures headers[j].path in DepsOf(headers[i], SetOf(Paths(headers)), includes) <==> IncludesHeader(headers, includes, i, j)
  {
    var directives, path := includes(headers[i].path), headers[j].path;
    Included(headers[i], SetOf(Paths(headers)), includes);
    TargetsAre(SetOf(Paths(headers)), headers[i].path, directives, path);
    hide DepsOf, Targets, Target;
    forall d: nat | d < |directives| ensures Target(SetOf(Paths(headers)), directives[d]) == Some(path) <==> exists k :: Names(headers, directives, d, k, path) {
      NamedFirst(headers, directives, d, j);
    }
  }

  lemma {:induction false} NamedFirst(headers: seq<Item>, directives: seq<seq<Path>>, d: nat, j: nat)
    requires d < |directives| && j < |headers|
    ensures Target(SetOf(Paths(headers)), directives[d]) == Some(headers[j].path) <==> exists k :: Names(headers, directives, d, k, headers[j].path)
  {
    var paths, candidates := SetOf(Paths(headers)), directives[d];
    assert Paths(headers)[j] in paths;
    InPaths(headers);
    TargetIsFirst(paths, candidates);
    hide SetOf, Paths, Target;
    if k :| Names(headers, directives, d, k, headers[j].path) {
      assert FirstIn(paths, candidates, k);
    }
    if Target(paths, candidates) == Some(headers[j].path) {
      var k: nat :| FirstIn(paths, candidates, k);
      assert Names(headers, directives, d, k, headers[j].path);
    }
  }

  lemma {:induction false} InPaths(headers: seq<Item>)
    ensures forall p :: p in SetOf(Paths(headers)) <==> exists h :: 0 <= h < |headers| && headers[h].path == p
  {
    forall p | p in SetOf(Paths(headers)) ensures exists h :: 0 <= h < |headers| && headers[h].path == p {
      var h :| 0 <= h < |headers| && Paths(headers)[h] == p;
      assert headers[h].path == p;
    }
    forall h | 0 <= h < |headers| ensures headers[h].path in SetOf(Paths(headers)) {
      assert Paths(headers)[h] in Paths(headers);
    }
  }

  predicate FirstIn(headers: set<Path>, candidates: seq<Path>, k: nat) {
    k < |candidates| && candidates[k] in headers && forall m :: 0 <= m < k ==> candidates[m] !in headers
  }

  /** An include means its first candidate that is a changed header. */
  lemma {:induction false} TargetIsFirst(headers: set<Path>, candidates: seq<Path>)
    ensures forall k: nat :: FirstIn(headers, candidates, k) ==> Target(headers, candidates) == Some(candidates[k])
    ensures Target(headers, candidates).Some? ==> exists k: nat :: FirstIn(headers, candidates, k)
    decreases |candidates|
  {
    if candidates != [] {
      var rest := candidates[1..];
      TargetIsFirst(headers, rest);
      if candidates[0] in headers {
        assert FirstIn(headers, candidates, 0);
      } else {
        forall k: nat | FirstIn(headers, candidates, k) ensures k > 0 && FirstIn(headers, rest, k - 1) && rest[k - 1] == candidates[k] {
          assert forall m :: 0 <= m < k - 1 ==> rest[m] == candidates[m + 1];
        }
        if Target(headers, rest).Some? {
          var k: nat :| FirstIn(headers, rest, k);
          assert forall m :: 1 <= m < k + 1 ==> candidates[m] == rest[m - 1];
          assert FirstIn(headers, candidates, k + 1);
        }
      }
    }
  }

  lemma {:induction false} TargetsAre(headers: set<Path>, path: Path, directives: seq<seq<Path>>, p: Path)
    ensures p in Targets(headers, path, directives) <==> p != path && exists d :: 0 <= d < |directives| && Target(headers, directives[d]) == Some(p)
    decreases |directives|
  {
    hide Target;
    if directives != [] {
      var n := |directives| - 1;
      TargetsAre(headers, path, directives[..n], p);
      if d :| 0 <= d < n && Target(headers, directives[..n][d]) == Some(p) {
        assert Target(headers, directives[d]) == Some(p);
      }
      if d :| 0 <= d < n && Target(headers, directives[d]) == Some(p) {
        assert Target(headers, directives[..n][d]) == Some(p);
      }
    }
  }

  /** Each header's degree is the number of changed headers it includes, and it is listed under exactly those. */
  ghost predicate CountsIncludes(headers: seq<Item>, includes: Includes, graph: Graph, degree: map<Path, int>) {
    && graph.Keys == degree.Keys == SetOf(Paths(headers))
    && forall i, j :: 0 <= i < |headers| && 0 <= j < |headers| ==>
         && degree[headers[i].path] == |DepsOf(headers[i], SetOf(Paths(headers)), includes)|
         && (headers[i].path in graph[headers[j].path] <==> headers[j].path in DepsOf(headers[i], SetOf(Paths(headers)), includes))
  }

  lemma {:induction false} Counted(headers: seq<Item>, includes: Includes, deps: Graph, graph: Graph, degree: map<Path, int>)
    requires IsGraph(headers, includes, deps) && Built(deps, graph, degree)
    ensures CountsIncludes(headers, includes, graph, degree)
  {
    hide DepsOf;
    forall i | 0 <= i < |headers| ensures headers[i].path in deps && headers[i].path in SetOf(Paths(headers)) {
      assert Paths(headers)[i] == headers[i].path;
    }
    assert forall p :: p in deps.Keys <==> p in SetOf(Paths(headers));
  }

  /** The first `n` headers' includes are recorded, and no others. */
  predicate RecordedUpTo(headers: seq<Item>, includes: Includes, deps: Graph, n: nat) {
    && deps.Keys == SetOf(Paths(headers))
    && forall i :: 0 <= i < |headers| ==>
         headers[i].path in deps && deps[headers[i].path] == if i < n then DepsOf(headers[i], SetOf(Paths(headers)), includes) else {}
  }

  lemma {:induction false} NoneRecorded(headers: seq<Item>, includes: Includes, deps: Graph)
    requires deps.Keys == SetOf(Paths(headers)) && forall p :: p in deps ==> deps[p] == {}
    ensures RecordedUpTo(headers, includes, deps, 0)
  {
    forall i | 0 <= i < |headers| ensures headers[i].path in deps {
      assert Paths(headers)[i] in Paths(headers);
    }
  }

  lemma {:induction false} RecordNext(headers: seq<Item>, includes: Includes, deps: Graph, n: nat)
    requires Distinct(Paths(headers)) && n < |headers| && RecordedUpTo(headers, includes, deps, n)
    ensures deps.Keys == SetOf(Paths(headers)) && headers[n].path in deps && deps[headers[n].path] == {}
    ensures headers[n].deleted ==> RecordedUpTo(headers, includes, deps, n + 1)
    ensures !headers[n].deleted ==>
              RecordedUpTo(headers, includes,
                           deps[headers[n].path := Targets(SetOf(Paths(headers)), headers[n].path, includes(headers[n].path))], n + 1)
  {
    Included(headers[n], SetOf(Paths(headers)), includes);
    hide DepsOf, Targets;
    forall i | 0 <= i < |headers| && i != n ensures headers[i].path != headers[n].path {
      assert Paths(headers)[i] != Paths(headers)[n];
    }
    var deps' := deps[headers[n].path := Targets(SetOf(Paths(headers)), headers[n].path, includes(headers[n].path))];
    assert deps'.Keys == deps.Keys;
  }

  lemma {:induction false} RecordedAll(headers: seq<Item>, includes: Includes, deps: Graph)
    requires RecordedUpTo(headers, includes, deps, |headers|)
    ensures IsGraph(headers, includes, deps)
  {
    hide DepsOf;
  }

  lemma {:induction false} GraphClosed(headers: seq<Item>, includes: Includes, deps: Graph)
    requires IsGraph(headers, includes, deps)
    ensures Closed(deps)
  {
    forall p, d | p in deps && d in deps[p] ensures d in deps {
      var i :| 0 <= i < |headers| && Paths(headers)[i] == p;
      assert headers[i].path == p;
      TargetsIn(SetOf(Paths(headers)), p, includes(p));
    }
  }

  /** Headers that include no other changed header come first. */
  method FirstQueue(headers: seq<Item>, includes: Includes, graph: Graph, degree: map<Path, int>, ghost deps: Graph) returns (queue: seq<Path>)
    requires Distinct(Paths(headers)) && IsGraph(headers, includes, deps) && Built(deps, graph, degree)
    ensures KahnOk(deps, Kahn([], queue, degree)) && Inverse(deps, graph)
  {
    queue := [];
    for i := 0 to |headers|
      invariant Distinct(queue) && forall p :: p in queue <==> p in Paths(headers)[..i] && p in degree && degree[p] == 0
    {
      var path := headers[i].path;
      FreshPath(Paths(headers), i);
      hide Built;
      if degree[path] == 0 {
        queue := queue + [path];
      }
    }
    assert Paths(headers)[..|headers|] == Paths(headers);
    GraphClosed(headers, includes, deps);
    StartOk(deps, graph, degree, queue);
  }

  lemma {:induction false} FreshPath(paths: seq<Path>, i: nat)
    requires Distinct(paths) && i < |paths|
    ensures paths[i] !in paths[..i] && paths[..i + 1] == paths[..i] + [paths[i]]
  {
  }

  lemma {:induction false} StartOk(deps: Graph, graph: Graph, degree: map<Path, int>, queue: seq<Path>)
    requires Closed(deps) && Built(deps, graph, degree) && Distinct(queue) && forall p :: p in queue <==> p in deps && degree[p] == 0
    ensures KahnOk(deps, Kahn([], queue, degree)) && Inverse(deps, graph)
  {
    var k := Kahn([], queue, degree);
    forall p ensures (p in deps ==> DegreeOk(deps, k, p)) && QueuedOk(deps, k, p) {
      if p in deps {
        assert deps[p] - SetOf([]) == deps[p];
      }
    }
  }

  // ---------------------------------------------------------------- the result

  function ByPath(headers: seq<Item>): map<Path, Item> {
    if headers == [] then map[] else var n := |headers| - 1; ByPath(headers[..n])[headers[n].path := headers[n]]
  }

  lemma {:induction false} ByPathAt(headers: seq<Item>, p: Path)
    ensures p in ByPath(headers) <==> p in Paths(headers)
    ensures p in ByPath(headers) ==> ByPath(headers)[p] in headers && ByPath(headers)[p].path == p
    decreases |headers|
  {
    if headers != [] {
      var n := |headers| - 1;
      ByPathAt(headers[..n], p);
      assert Paths(headers) == Paths(headers[..n]) + [headers[n].path];
      assert headers == headers[..n] + [headers[n]];
    }
  }

  /** The first `n` come after the headers they include. */
  ghost predicate IncludedFirst(deps: Graph, sorted: seq<Item>, n: nat)
    requires n <= |sorted|
  {
    forall i :: 0 <= i < n ==> sorted[i].path in deps && deps[sorted[i].path] <= SetOf(Paths(sorted)[..i])
  }

  ghost predicate OnCycle(deps: Graph, p: Path) {
    exists walk, a, b :: walk != [] && walk[0] == p && LeadsToCycle(deps, walk, a, b)
  }

  /** The headers, ordered: the first `n` come after the headers they include; the others keep their order; and the others
      are exactly those that depend on a cycle. No header is lost or added. */
  ghost predicate Ordered(headers: seq<Item>, deps: Graph, sorted: seq<Item>, n: nat) {
    && n <= |sorted| && Distinct(Paths(sorted)) && (forall x :: x in sorted <==> x in headers)
    && IncludedFirst(deps, sorted, n)
    && sorted[n..] == Unseen(headers, SetOf(Paths(sorted)[..n]))
    && forall i :: 0 <= i < |sorted| ==> (OnCycle(deps, sorted[i].path) <==> i >= n)
  }

  // ---------------------------------------------------------------- order_changed_files

  lemma {:induction false} HeadersIn(items: seq<Item>)
    requires Distinct(Paths(items))
    ensures Distinct(Paths(Headers(items))) && Distinct(Paths(Others(items)))
    ensures forall x :: x in Headers(items) <==> x in items && x.isHeader
    ensures forall x :: x in Others(items) <==> x in items && !x.isHeader
    decreases |items|
  {
    if items != [] {
      var n := |items| - 1;
      assert Paths(items[..n]) == Paths(items)[..n];
      HeadersIn(items[..n]);
      assert items == items[..n] + [items[n]];
      NewPath(items, Headers(items[..n]));
      NewPath(items, Others(items[..n]));
    }
  }

  /** Adding the last item to items from before it keeps the paths distinct. */
  lemma {:induction false} NewPath(items: seq<Item>, some: seq<Item>)
    requires items != [] && Distinct(Paths(items)) && Distinct(Paths(some)) && forall x :: x in some ==> x in items[..|items|-1]
    ensures Distinct(Paths(some + [items[|items|-1]]))
  {
    var n, all := |items| - 1, some + [items[|items|-1]];
    forall i | 0 <= i < |some| ensures some[i].path != items[n].path {
      assert some[i] in some;
      var j :| 0 <= j < n && items[..n][j] == some[i];
      assert Paths(items)[j] != Paths(items)[n];
    }
    assert forall i :: 0 <= i < |some| ==> Paths(all)[i] == Paths(some)[i];
  }

  lemma {:induction false} UnseenIn(items: seq<Item>, seen: set<Path>)
    requires Distinct(Paths(items))
    ensures Distinct(Paths(Unseen(items, seen)))
    ensures forall x :: x in Unseen(items, seen) <==> x in items && x.path !in seen
    decreases |items|
  {
    if items != [] {
      var n := |items| - 1;
      assert Paths(items[..n]) == Paths(items)[..n];
      UnseenIn(items[..n], seen);
      assert items == items[..n] + [items[n]];
      NewPath(items, Unseen(items[..n], seen));
    }
  }

  /** The items of the emitted paths. */
  method ItemsOf(headers: seq<Item>, sorted: seq<Path>) returns (items: seq<Item>)
    requires forall i :: 0 <= i < |sorted| ==> sorted[i] in Paths(headers)
    ensures |items| == |sorted| && Paths(items) == sorted && forall x :: x in items ==> x in headers
  {
    var byPath := ByPath(headers);
    items := [];
    for i := 0 to |sorted|
      invariant |items| == i && Paths(items) == sorted[..i] && forall x :: x in items ==> x in headers
    {
      ByPathAt(headers, sorted[i]);
      items := items + [byPath[sorted[i]]];
    }
    assert sorted[..|sorted|] == sorted;
  }

  /** Headers left over by the loop, appended in their original order. */
  method Leftovers(headers: seq<Item>, sorted: seq<Path>) returns (rest: seq<Item>)
    requires Distinct(Paths(headers))
    ensures rest == Unseen(headers, SetOf(sorted))
  {
    var seen := SetOf(sorted);
    rest := [];
    for i := 0 to |headers|
      invariant rest == Unseen(headers[..i], SetOf(sorted))
    {
      assert headers[..i + 1][..i] == headers[..i];
      if headers[i].path !in seen {
        rest := rest + [headers[i]];
      }
    }
    assert headers[..|headers|] == headers;
  }

  /** Headers so that each comes after the headers it includes, as far as there is no cycle. */
  method OrderHeaders(headers: seq<Item>, includes: Includes) returns (sorted: seq<Item>, ghost deps: Graph, ghost n: nat)
    requires Distinct(Paths(headers))
    ensures Distinct(Paths(sorted)) && forall x :: x in sorted <==> x in headers
    ensures IsGraph(headers, includes, deps) && Ordered(headers, deps, sorted, n)
  {
    var graph, degree;
    graph, degree, deps := BuildGraph(headers, includes);
    var queue := FirstQueue(headers, includes, graph, degree, deps);
    hide KahnOk, Inverse, Built, IsGraph;
    var paths := Sort(deps, graph, degree, queue);
    ghost var k :| KahnOk(deps, k) && k.queue == [] && k.sorted == paths;
    EmittedAreHeaders(headers, includes, deps, k);
    var first := ItemsOf(headers, paths);
    var rest := Leftovers(headers, paths);
    sorted, n := first + rest, |first|;
    Assembled(headers, includes, deps, k, first, rest);
  }

  lemma {:induction false} EmittedAreHeaders(headers: seq<Item>, includes: Includes, deps: Graph, k: Kahn)
    requires IsGraph(headers, includes, deps) && KahnOk(deps, k)
    ensures Distinct(k.sorted) && forall i :: 0 <= i < |k.sorted| ==> k.sorted[i] in Paths(headers)
  {
    forall i | 0 <= i < |k.sorted| ensures k.sorted[i] in Paths(headers) {
      assert EmittedOk(deps, k.sorted, i);
    }
  }

  lemma {:induction false} Assembled(headers: seq<Item>, includes: Includes, deps: Graph, k: Kahn, first: seq<Item>, rest: seq<Item>)
    requires Distinct(Paths(headers)) && IsGraph(headers, includes, deps) && KahnOk(deps, k) && k.queue == []
    requires Paths(first) == k.sorted && (forall x :: x in first ==> x in headers) && rest == Unseen(headers, SetOf(k.sorted))
    ensures Ordered(headers, deps, first + rest, |first|)
  {
    hide KahnOk, IsGraph, Unseen, OnCycle, IncludedFirst, Distinct, SetOf;
    var sorted, n := first + rest, |first|;
    UnseenIn(headers, SetOf(k.sorted));
    EmittedAreHeaders(headers, includes, deps, k);
    AllThere(headers, k.sorted, first, rest);
    FirstPaths(first, rest);
    EmittedFirst(deps, k, first, rest);
    forall i | 0 <= i < |sorted| ensures OnCycle(deps, sorted[i].path) <==> i >= n {
      CycleAt(headers, includes, deps, k, first, rest, i);
    }
  }

  lemma {:induction false} CycleAt(headers: seq<Item>, includes: Includes, deps: Graph, k: Kahn, first: seq<Item>, rest: seq<Item>, i: nat)
    requires IsGraph(headers, includes, deps) && KahnOk(deps, k) && k.queue == [] && Paths(first) == k.sorted
    requires i < |first + rest| && forall x :: x in rest ==> x in headers && x.path !in SetOf(k.sorted)
    ensures OnCycle(deps, (first + rest)[i].path) <==> i >= |first|
  {
    hide KahnOk, IsGraph, OnCycle;
    if i < |first| {
      assert Paths(first)[i] == first[i].path && first[i].path in k.sorted;
      EmittedOffCycle(deps, k, first[i].path);
    } else {
      var x := rest[i - |first|];
      assert x in rest;
      LeftIsHeader(headers, includes, deps, x);
      LeftOnCycle(deps, k, x.path);
    }
  }

  lemma {:induction false} FirstPaths(first: seq<Item>, rest: seq<Item>)
    ensures Paths(first + rest)[..|first|] == Paths(first) && (first + rest)[|first|..] == rest
  {
  }

  lemma {:induction false} EmittedFirst(deps: Graph, k: Kahn, first: seq<Item>, rest: seq<Item>)
    requires KahnOk(deps, k) && Paths(first) == k.sorted
    ensures IncludedFirst(deps, first + rest, |first|)
  {
    var sorted := first + rest;
    forall i | 0 <= i < |first| ensures sorted[i].path in deps && deps[sorted[i].path] <= SetOf(Paths(sorted)[..i]) {
      assert EmittedOk(deps, k.sorted, i);
      hide KahnOk;
      assert sorted[i].path == k.sorted[i] && Paths(sorted)[..i] == k.sorted[..i];
    }
  }

  lemma {:induction false} EmittedOffCycle(deps: Graph, k: Kahn, p: Path)
    requires KahnOk(deps, k) && p in k.sorted
    ensures !OnCycle(deps, p)
  {
    forall walk, a: nat, b: nat | walk != [] && walk[0] == p && a < b < |walk| && Follows(deps, walk) ensures walk[a] != walk[b] {
      EmittedNoCycle(deps, k, walk, a, b);
    }
  }

  lemma {:induction false} LeftOnCycle(deps: Graph, k: Kahn, p: Path)
    requires KahnOk(deps, k) && k.queue == [] && p in deps && p !in k.sorted
    ensures OnCycle(deps, p)
  {
    var walk, a, b := LeftLeadsToCycle(deps, k, p);
  }

  lemma {:induction false} LeftIsHeader(headers: seq<Item>, includes: Includes, deps: Graph, x: Item)
    requires IsGraph(headers, includes, deps) && x in headers
    ensures x.path in deps
  {
    var i :| 0 <= i < |headers| && headers[i] == x;
  }

  lemma {:induction false} AllThere(headers: seq<Item>, paths: seq<Path>, first: seq<Item>, rest: seq<Item>)
    requires Distinct(Paths(headers)) && Distinct(paths) && Paths(first) == paths && (forall x :: x in first ==> x in headers)
    requires Distinct(Paths(rest)) && forall x :: x in rest <==> x in headers && x.path !in SetOf(paths)
    ensures Distinct(Paths(first + rest)) && forall x :: x in first + rest <==> x in headers
  {
    forall i, j | 0 <= i < |first| && 0 <= j < |rest| ensures first[i].path != rest[j].path {
      assert rest[j] in rest && paths[i] == first[i].path && paths[i] in paths;
    }
    assert forall i :: 0 <= i < |first + rest| ==> Paths(first + rest)[i] == if i < |first| then Paths(first)[i] else Paths(rest)[i - |first|];
    forall x | x in headers ensures x in first + rest {
      if x.path in SetOf(paths) {
        var i :| 0 <= i < |paths| && paths[i] == x.path;
        SamePathSameItem(headers, first[i], x);
      }
    }
  }

  lemma {:induction false} SamePathSameItem(headers: seq<Item>, x: Item, y: Item)
    requires Distinct(Paths(headers)) && x in headers && y in headers && x.path == y.path
    ensures x == y
  {
    var i :| 0 <= i < |headers| && headers[i] == x;
    var j :| 0 <= j < |headers| && headers[j] == y;
    assert Paths(headers)[i] == Paths(headers)[j];
  }

  /** The changed files in parse order: all headers first, ordered by what they include, then the other files as they were. */
  method OrderChangedFiles(items: seq<Item>, includes: Includes, haveDir: bool) returns (out: seq<Item>)
    requires Distinct(Paths(items))
    ensures items == [] || !haveDir ==> out == items
    ensures items != [] && haveDir && |Headers(items)| <= 1 ==> out == Headers(items) + Others(items)
    ensures items != [] && haveDir && |Headers(items)| > 1 ==>
              exists deps, sorted, n :: IsGraph(Headers(items), includes, deps) && Ordered(Headers(items), deps, sorted, n) && out == sorted + Others(items)
    ensures Distinct(Paths(out)) && forall x :: x in out <==> x in items
  {
    if items == [] || !haveDir {
      return items;
    }
    HeadersIn(items);
    var headers, others := Headers(items), Others(items);
    if |headers| <= 1 {
      Joined(items, headers, others);
      return headers + others;
    }
    var sorted, deps, n := OrderHeaders(headers, includes);
    Joined(items, sorted, others);
    out := sorted + others;
  }

  lemma {:induction false} Joined(items: seq<Item>, headers: seq<Item>, others: seq<Item>)
    requires Distinct(Paths(items)) && Distinct(Paths(headers)) && Distinct(Paths(others))
    requires forall x :: x in headers <==> x in items && x.isHeader
    requires forall x :: x in others <==> x in items && !x.isHeader
    ensures Distinct(Paths(headers + others)) && forall x :: x in headers + others <==> x in items
  {
    forall i, j | 0 <= i < |headers| && 0 <= j < |others| ensures headers[i].path != others[j].path {
      assert headers[i] in headers && others[j] in others;
      if headers[i].path == others[j].path {
        SamePathSameItem(items, headers[i], others[j]);
      }
    }
    assert forall i :: 0 <= i < |headers + others| ==>
      Paths(headers + others)[i] == if i < |headers| then Paths(headers)[i] else Paths(others)[i - |headers|];
  }
}
