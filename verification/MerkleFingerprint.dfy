/** Fingerprints of operations (core/SymbolRows.py): an explicit work stack over a graph of operations that refer to
    each other by position. It ends on every graph, and every operation whose references lead into no cycle gets its
    recursive Merkle hash, whatever was fingerprinted before. */
module MerkleFingerprint {
  import opened Basics

  /** An operation's data: a normalized plain value, a tuple, a positional reference, or any other reference. */
  datatype Val =
    | Plain(norm: int)
    | Tuple(vals: seq<Val>)
    | Pos(query: int, idx: int)
    | Other(query: int, route: seq<int>)

  datatype Op = Op(table: int, kind: int, data: Val)

  type Ops = seq<Option<Op>>

  /** What is digested: positional references are replaced by fingerprints, or kept when there is none. */
  datatype Shape =
    | PlainS(norm: int)
    | TupleS(vals: seq<Shape>)
    | PosS(query: int, fp: int)
    | CycleS(query: int, idx: int)
    | OtherS(query: int, route: seq<int>)

  datatype Digested = Missing(idx: int) | Node(table: int, kind: int, data: Shape)

  /** Identity of a target within one parse. */
  datatype Target = Placed(query: int, fp: int) | Referred(ref: Val) | Valued(shape: Shape)

  predicate HasOp(ops: Ops, idx: int) {
    0 <= idx < |ops| && ops[idx].Some?
  }

  function Children(val: Val): seq<int> {
    match val
    case Pos(_, idx) => [idx]
    case Tuple(vals) => ChildrenOf(vals)
    case _ => []
  }

  function ChildrenOf(vals: seq<Val>): seq<int> {
    if vals == [] then [] else Children(vals[0]) + ChildrenOf(vals[1..])
  }

  function ShapeOf(val: Val, memo: map<int, int>): Shape {
    match val
    case Plain(norm) => PlainS(norm)
    case Other(query, route) => OtherS(query, route)
    case Pos(query, idx) => if idx in memo then PosS(query, memo[idx]) else CycleS(query, idx)
    case Tuple(vals) => TupleS(ShapesOf(vals, memo))
  }

  function ShapesOf(vals: seq<Val>, memo: map<int, int>): seq<Shape> {
    if vals == [] then [] else [ShapeOf(vals[0], memo)] + ShapesOf(vals[1..], memo)
  }

  // ---------------------------------------------------------------- the recursive hash

  predicate ChildrenBelow(ops: Ops, rank: map<int, nat>, val: Val, bound: nat) {
    forall c :: c in Children(val) && HasOp(ops, c) ==> c in rank && rank[c] < bound
  }

  /** The ranked operations are closed under positional references and refer to lower ranks: no cycle is reached. */
  predicate Grounded(ops: Ops, rank: map<int, nat>) {
    forall idx :: idx in rank ==> HasOp(ops, idx) && ChildrenBelow(ops, rank, ops[idx].value.data, rank[idx])
  }

  function Hash(ops: Ops, rank: map<int, nat>, digest: Digested -> int, idx: int): int
    requires Grounded(ops, rank) && idx in rank
    decreases rank[idx], 1
  {
    var op := ops[idx].value;
    digest(Node(op.table, op.kind, HashShape(ops, rank, digest, op.data, rank[idx])))
  }

  function HashShape(ops: Ops, rank: map<int, nat>, digest: Digested -> int, val: Val, bound: nat): Shape
    requires Grounded(ops, rank) && ChildrenBelow(ops, rank, val, bound)
    decreases bound, 0, val
  {
    match val
    case Plain(norm) => PlainS(norm)
    case Other(query, route) => OtherS(query, route)
    case Pos(query, idx) => if HasOp(ops, idx) then PosS(query, Hash(ops, rank, digest, idx)) else CycleS(query, idx)
    case Tuple(vals) => TupleS(HashShapes(ops, rank, digest, vals, bound))
  }

  function HashShapes(ops: Ops, rank: map<int, nat>, digest: Digested -> int, vals: seq<Val>, bound: nat): seq<Shape>
    requires Grounded(ops, rank) && ChildrenBelow(ops, rank, Tuple(vals), bound)
    decreases bound, 0, vals
  {
    if vals == [] then []
    else
      assert ChildrenOf(vals) == Children(vals[0]) + ChildrenOf(vals[1..]);
      [HashShape(ops, rank, digest, vals[0], bound)] + HashShapes(ops, rank, digest, vals[1..], bound)
  }

  /** Fingerprints of ranked operations are their hashes, and only operations have fingerprints. */
  predicate Consistent(ops: Ops, rank: map<int, nat>, digest: Digested -> int, memo: map<int, int>)
    requires Grounded(ops, rank)
  {
    && (forall idx :: idx in memo ==> HasOp(ops, idx))
    && (forall idx :: idx in memo && idx in rank ==> memo[idx] == Hash(ops, rank, digest, idx))
  }

  predicate Settled(ops: Ops, memo: map<int, int>, val: Val) {
    forall c :: c in Children(val) && HasOp(ops, c) ==> c in memo
  }

  /** Once all its references have fingerprints, the shape of a value is the one the hash uses. */
  lemma {:induction false} ShapeIsHashShape(ops: Ops, rank: map<int, nat>, digest: Digested -> int, memo: map<int, int>, val: Val, bound: nat)
    requires Grounded(ops, rank) && Consistent(ops, rank, digest, memo) && ChildrenBelow(ops, rank, val, bound) && Settled(ops, memo, val)
    ensures ShapeOf(val, memo) == HashShape(ops, rank, digest, val, bound)
    decreases val
  {
    match val
    case Tuple(vals) => ShapesAreHashShapes(ops, rank, digest, memo, vals, bound);
    case Pos(_, idx) => assert idx in Children(val);
    case _ =>
  }

  lemma {:induction false} ShapesAreHashShapes(ops: Ops, rank: map<int, nat>, digest: Digested -> int, memo: map<int, int>, vals: seq<Val>, bound: nat)
    requires Grounded(ops, rank) && Consistent(ops, rank, digest, memo)
    requires ChildrenBelow(ops, rank, Tuple(vals), bound) && Settled(ops, memo, Tuple(vals))
    ensures ShapesOf(vals, memo) == HashShapes(ops, rank, digest, vals, bound)
    decreases vals
  {
    if vals != [] {
      assert ChildrenOf(vals) == Children(vals[0]) + ChildrenOf(vals[1..]);
      ShapeIsHashShape(ops, rank, digest, memo, vals[0], bound);
      ShapesAreHashShapes(ops, rank, digest, memo, vals[1..], bound);
    }
  }

  // ---------------------------------------------------------------- what the hash identifies

  /** An operation with its references followed: what it stands for, wherever it is stored. */
  datatype Tree =
    | PlainT(norm: int)
    | TupleT(vals: seq<Tree>)
    | RefT(query: int, content: Content)
    | DanglingT(query: int, idx: int)
    | OtherT(query: int, route: seq<int>)

  datatype Content = Content(table: int, kind: int, data: Tree)

  function ContentOf(ops: Ops, rank: map<int, nat>, idx: int): Content
    requires Grounded(ops, rank) && idx in rank
    decreases rank[idx], 1
  {
    var op := ops[idx].value;
    Content(op.table, op.kind, TreeOf(ops, rank, op.data, rank[idx]))
  }

  function TreeOf(ops: Ops, rank: map<int, nat>, val: Val, bound: nat): Tree
    requires Grounded(ops, rank) && ChildrenBelow(ops, rank, val, bound)
    decreases bound, 0, val
  {
    match val
    case Plain(norm) => PlainT(norm)
    case Other(query, route) => OtherT(query, route)
    case Pos(query, idx) =>
      if HasOp(ops, idx) then RefT(query, ContentOf(ops, rank, idx)) else DanglingT(query, idx)
    case Tuple(vals) => TupleT(TreesOf(ops, rank, vals, bound))
  }

  function TreesOf(ops: Ops, rank: map<int, nat>, vals: seq<Val>, bound: nat): seq<Tree>
    requires Grounded(ops, rank) && ChildrenBelow(ops, rank, Tuple(vals), bound)
    decreases bound, 0, vals
  {
    if vals == [] then []
    else
      assert ChildrenOf(vals) == Children(vals[0]) + ChildrenOf(vals[1..]);
      [TreeOf(ops, rank, vals[0], bound)] + TreesOf(ops, rank, vals[1..], bound)
  }

  ghost predicate CollisionFree(digest: Digested -> int) {
    forall a, b :: digest(a) == digest(b) ==> a == b
  }

  /** Values with the same tree have the same shape; the converse needs a digest without collisions. */
  lemma {:induction false} ShapeIffTree(ops: Ops, rank: map<int, nat>, digest: Digested -> int, val: Val, bound: nat, val': Val, bound': nat)
    requires Grounded(ops, rank) && ChildrenBelow(ops, rank, val, bound) && ChildrenBelow(ops, rank, val', bound')
    ensures TreeOf(ops, rank, val, bound) == TreeOf(ops, rank, val', bound') ==>
              HashShape(ops, rank, digest, val, bound) == HashShape(ops, rank, digest, val', bound')
    ensures CollisionFree(digest) && HashShape(ops, rank, digest, val, bound) == HashShape(ops, rank, digest, val', bound') ==>
              TreeOf(ops, rank, val, bound) == TreeOf(ops, rank, val', bound')
    decreases bound, 0, val
  {
    match (val, val')
    case (Tuple(vals), Tuple(vals')) => ShapesIffTrees(ops, rank, digest, vals, bound, vals', bound');
    case (Pos(_, idx), Pos(_, idx')) =>
      assert idx in Children(val) && idx' in Children(val');
      if HasOp(ops, idx) && HasOp(ops, idx') {
        NodeIffTree(ops, rank, digest, idx, idx');
      }
    case _ =>
  }

  lemma {:induction false} NodeIffTree(ops: Ops, rank: map<int, nat>, digest: Digested -> int, a: int, b: int)
    requires Grounded(ops, rank) && a in rank && b in rank
    ensures ContentOf(ops, rank, a) == ContentOf(ops, rank, b) ==> Hash(ops, rank, digest, a) == Hash(ops, rank, digest, b)
    ensures CollisionFree(digest) && Hash(ops, rank, digest, a) == Hash(ops, rank, digest, b) ==> ContentOf(ops, rank, a) == ContentOf(ops, rank, b)
    decreases rank[a], 1
  {
    var p, q := ops[a].value, ops[b].value;
    ShapeIffTree(ops, rank, digest, p.data, rank[a], q.data, rank[b]);
    var x, y := Node(p.table, p.kind, HashShape(ops, rank, digest, p.data, rank[a])), Node(q.table, q.kind, HashShape(ops, rank, digest, q.data, rank[b]));
    assert Hash(ops, rank, digest, a) == digest(x) && Hash(ops, rank, digest, b) == digest(y);
  }

  lemma {:induction false} ShapesIffTrees(ops: Ops, rank: map<int, nat>, digest: Digested -> int, vals: seq<Val>, bound: nat, vals': seq<Val>, bound': nat)
    requires Grounded(ops, rank) && ChildrenBelow(ops, rank, Tuple(vals), bound) && ChildrenBelow(ops, rank, Tuple(vals'), bound')
    ensures TreesOf(ops, rank, vals, bound) == TreesOf(ops, rank, vals', bound') ==>
              HashShapes(ops, rank, digest, vals, bound) == HashShapes(ops, rank, digest, vals', bound')
    ensures CollisionFree(digest) && HashShapes(ops, rank, digest, vals, bound) == HashShapes(ops, rank, digest, vals', bound') ==>
              TreesOf(ops, rank, vals, bound) == TreesOf(ops, rank, vals', bound')
    decreases bound, 0, vals
  {
    if vals != [] && vals' != [] {
      assert ChildrenOf(vals) == Children(vals[0]) + ChildrenOf(vals[1..]);
      assert ChildrenOf(vals') == Children(vals'[0]) + ChildrenOf(vals'[1..]);
      ShapeIffTree(ops, rank, digest, vals[0], bound, vals'[0], bound');
      ShapesIffTrees(ops, rank, digest, vals[1..], bound, vals'[1..], bound');
      ConsParts(TreeOf(ops, rank, vals[0], bound), TreesOf(ops, rank, vals[1..], bound),
                TreeOf(ops, rank, vals'[0], bound'), TreesOf(ops, rank, vals'[1..], bound'));
      ConsParts(HashShape(ops, rank, digest, vals[0], bound), HashShapes(ops, rank, digest, vals[1..], bound),
                HashShape(ops, rank, digest, vals'[0], bound'), HashShapes(ops, rank, digest, vals'[1..], bound'));
    }
  }

  lemma {:induction false} ConsParts<T>(x: T, xs: seq<T>, y: T, ys: seq<T>)
    ensures [x] + xs == [y] + ys <==> x == y && xs == ys
  {
    if [x] + xs == [y] + ys {
      assert ([x] + xs)[0] == ([y] + ys)[0];
      assert ([x] + xs)[1..] == xs && ([y] + ys)[1..] == ys;
    }
  }

  /** Two operations get the same fingerprint exactly when they stand for the same content. */
  lemma {:induction false} SameFingerprintSameContent(ops: Ops, rank: map<int, nat>, digest: Digested -> int, a: int, b: int)
    requires Grounded(ops, rank) && a in rank && b in rank && CollisionFree(digest)
    ensures Hash(ops, rank, digest, a) == Hash(ops, rank, digest, b) <==> ContentOf(ops, rank, a) == ContentOf(ops, rank, b)
  {
    NodeIffTree(ops, rank, digest, a, b);
  }

  // ---------------------------------------------------------------- what a fingerprint tells apart

  /** The value a shape without fingerprints was made from. */
  function ValueOf(s: Shape): Val {
    match s
    case PlainS(norm) => Plain(norm)
    case OtherS(query, route) => Other(query, route)
    case PosS(query, idx) => Pos(query, idx)
    case CycleS(query, idx) => Pos(query, idx)
    case TupleS(vals) => Tuple(ValuesOf(vals))
  }

  function ValuesOf(shapes: seq<Shape>): seq<Val> {
    if shapes == [] then [] else [ValueOf(shapes[0])] + ValuesOf(shapes[1..])
  }

  /** A value is read back from its shape. */
  lemma {:induction false} ValueBack(val: Val)
    ensures ValueOf(ShapeOf(val, map[])) == val
    decreases val
  {
    match val
    case Tuple(vals) => ValuesBack(vals);
    case _ =>
  }

  lemma {:induction false} ValuesBack(vals: seq<Val>)
    ensures ValuesOf(ShapesOf(vals, map[])) == vals
    decreases vals
  {
    if vals != [] {
      ValueBack(vals[0]);
      ValuesBack(vals[1..]);
    }
  }

  /** A reference to a stored operation is to one that reaches no cycle. */
  predicate InReach(ops: Ops, rank: map<int, nat>, val: Val) {
    val.Pos? && HasOp(ops, val.idx) ==> val.idx in rank
  }

  /** The identity of a target. */
  function FingerprintOf(ops: Ops, rank: map<int, nat>, digest: Digested -> int, val: Val): Target
    requires Grounded(ops, rank) && InReach(ops, rank, val)
  {
    match val
    case Pos(query, idx) => if HasOp(ops, idx) then Placed(query, Hash(ops, rank, digest, idx)) else Referred(val)
    case Other(_, _) => Referred(val)
    case _ => Valued(ShapeOf(val, map[]))
  }

  /** The same route to operations of the same content, or the same value. */
  predicate SameMeaning(ops: Ops, rank: map<int, nat>, a: Val, b: Val)
    requires Grounded(ops, rank) && InReach(ops, rank, a) && InReach(ops, rank, b)
  {
    if a.Pos? && b.Pos? && HasOp(ops, a.idx) && HasOp(ops, b.idx)
    then a.query == b.query && ContentOf(ops, rank, a.idx) == ContentOf(ops, rank, b.idx)
    else a == b
  }

  /** Two targets have the same fingerprint exactly when they mean the same. */
  lemma {:induction false} FingerprintsTellApart(ops: Ops, rank: map<int, nat>, digest: Digested -> int, a: Val, b: Val)
    requires Grounded(ops, rank) && InReach(ops, rank, a) && InReach(ops, rank, b) && CollisionFree(digest)
    ensures FingerprintOf(ops, rank, digest, a) == FingerprintOf(ops, rank, digest, b) <==> SameMeaning(ops, rank, a, b)
  {
    hide Grounded, CollisionFree, ContentOf, Hash, ShapeOf, ValueOf;
    ValueBack(a);
    ValueBack(b);
    if a.Pos? && b.Pos? && HasOp(ops, a.idx) && HasOp(ops, b.idx) {
      SameFingerprintSameContent(ops, rank, digest, a.idx, b.idx);
    }
  }

  // ---------------------------------------------------------------- the work stack

  /** The distinct elements, first occurrences first. */
  function WithoutRepeats(s: seq<int>): (r: seq<int>)
    ensures forall x :: x in r <==> x in s
  {
    if s == [] then []
    else
      var r := WithoutRepeats(s[..|s|-1]);
      assert s == s[..|s|-1] + [s[|s|-1]];
      if s[|s|-1] in r then r else r + [s[|s|-1]]
  }

  /** References still to fingerprint before `idx`. */
  function Pending(ops: Ops, children: seq<int>, memo: map<int, int>, expanding: set<int>, idx: int): (r: seq<int>)
    ensures forall c :: c in r <==> c in children && c !in memo && c !in expanding && c != idx && HasOp(ops, c)
  {
    if children == [] then []
    else
      var c := children[|children|-1];
      var r := Pending(ops, children[..|children|-1], memo, expanding, idx);
      assert children == children[..|children|-1] + [c];
      if c !in memo && c !in expanding && c != idx && HasOp(ops, c) then r + [c] else r
  }

  /** `open[p]` says that stack position `p` has been expanded: what lies above it is reached from it, its references
      have fingerprints or lie above it. */
  ghost predicate StackOk(ops: Ops, rank: map<int, nat>, memo: map<int, int>, expanding: set<int>, stack: seq<int>, open: seq<bool>) {
    && |open| == |stack|
    && (forall p :: 0 <= p < |stack| ==> HasOp(ops, stack[p]))
    && (forall e :: e in expanding && e in rank ==> exists p :: 0 <= p < |stack| && open[p] && stack[p] == e)
    && (forall p :: 0 <= p < |stack| && open[p] && stack[p] in rank ==> OpenOk(ops, rank, memo, stack, p))
  }

  ghost predicate OpenOk(ops: Ops, rank: map<int, nat>, memo: map<int, int>, stack: seq<int>, p: nat)
    requires p < |stack| && stack[p] in rank
  {
    && HasOp(ops, stack[p])
    && stack[p] !in memo
    && (forall q :: p < q < |stack| ==> stack[q] in rank && rank[stack[q]] < rank[stack[p]])
    && (forall c :: c in Children(ops[stack[p]].value.data) && HasOp(ops, c) ==> c in memo || c in stack[p + 1..])
  }

  lemma {:induction false} PopKeeps(ops: Ops, rank: map<int, nat>, memo: map<int, int>, expanding: set<int>, stack: seq<int>, open: seq<bool>,
                                    memo': map<int, int>, expanding': set<int>)
    requires stack != [] && StackOk(ops, rank, memo, expanding, stack, open)
    requires stack[|stack|-1] in memo' && expanding' <= expanding && (forall i :: i in memo ==> i in memo')
    requires forall i :: i in memo' && i !in memo ==> i == stack[|stack|-1]
    requires stack[|stack|-1] in memo || stack[|stack|-1] !in expanding'
    ensures StackOk(ops, rank, memo', expanding', stack[..|stack|-1], open[..|stack|-1])
  {
    var n := |stack| - 1;
    var stack', open' := stack[..n], open[..n];
    forall e | e in expanding' && e in rank ensures exists p :: 0 <= p < n && open'[p] && stack'[p] == e {
      var p :| 0 <= p < |stack| && open[p] && stack[p] == e;
      assert OpenOk(ops, rank, memo, stack, p);
      assert p != n;
      assert open'[p] && stack'[p] == e;
    }
    forall p | 0 <= p < n && open'[p] && stack'[p] in rank ensures OpenOk(ops, rank, memo', stack', p) {
      assert OpenOk(ops, rank, memo, stack, p);
      assert stack[n] in rank && rank[stack[n]] < rank[stack[p]];
      assert stack[p + 1..] == stack'[p + 1..] + [stack[n]];
    }
  }

  lemma {:induction false} ExpandKeeps(ops: Ops, rank: map<int, nat>, memo: map<int, int>, expanding: set<int>, stack: seq<int>, open: seq<bool>,
                                       pending: seq<int>)
    requires Grounded(ops, rank) && stack != [] && StackOk(ops, rank, memo, expanding, stack, open)
    requires stack[|stack|-1] !in memo
    requires pending == Pending(ops, WithoutRepeats(Children(ops[stack[|stack|-1]].value.data)), memo, expanding, stack[|stack|-1])
    ensures StackOk(ops, rank, memo, expanding + {stack[|stack|-1]}, stack + pending, open[..|stack|-1] + [true] + Closed(|pending|))
  {
    var n := |stack| - 1;
    var idx := stack[n];
    var stack', open' := stack + pending, open[..n] + [true] + Closed(|pending|);
    forall e | e in expanding + {idx} && e in rank ensures exists p :: 0 <= p < |stack'| && open'[p] && stack'[p] == e {
      if e == idx {
        assert open'[n] && stack'[n] == e;
      } else {
        var p :| 0 <= p < |stack| && open[p] && stack[p] == e;
        assert open'[p] && stack'[p] == e;
      }
    }
    forall p | 0 <= p < |stack'| && open'[p] && stack'[p] in rank ensures OpenOk(ops, rank, memo, stack', p) {
      assert p <= n;
      if p < n {
        OpenBelow(ops, rank, memo, expanding, stack, open, pending, p);
      } else {
        OpenTop(ops, rank, memo, expanding, stack, open, pending);
      }
    }
  }

  function Closed(n: nat): (r: seq<bool>)
    ensures |r| == n && forall i :: 0 <= i < n ==> !r[i]
  {
    seq(n, _ => false)
  }

  lemma {:induction false} OpenBelow(ops: Ops, rank: map<int, nat>, memo: map<int, int>, expanding: set<int>, stack: seq<int>, open: seq<bool>,
                                     pending: seq<int>, p: nat)
    requires Grounded(ops, rank) && p < |stack| - 1 && stack[p] in rank && OpenOk(ops, rank, memo, stack, p)
    requires HasOp(ops, stack[|stack|-1])
    requires pending == Pending(ops, WithoutRepeats(Children(ops[stack[|stack|-1]].value.data)), memo, expanding, stack[|stack|-1])
    ensures OpenOk(ops, rank, memo, stack + pending, p)
  {
    BelowTop(ops, rank, stack, p, pending, memo, expanding);
    hide Grounded, ChildrenBelow, Children, Pending, WithoutRepeats;
    var stack' := stack + pending;
    Appended(stack, pending, p);
    assert stack'[p] == stack[p];
    forall q | p < q < |stack'| ensures stack'[q] in rank && rank[stack'[q]] < rank[stack'[p]] {
      if q < |stack| {
        assert stack'[q] == stack[q];
        assert stack[q] in rank && rank[stack[q]] < rank[stack[p]];
      } else {
        assert stack'[q] == pending[q - |stack|];
        assert stack'[q] in pending;
      }
    }
    forall c | c in Children(ops[stack'[p]].value.data) && HasOp(ops, c) ensures c in memo || c in stack'[p + 1..] {
      assert c in memo || c in stack[p + 1..];
    }
  }

  lemma {:induction false} Appended(stack: seq<int>, pending: seq<int>, p: nat)
    requires p < |stack|
    ensures forall q :: p < q < |stack + pending| ==> (q < |stack| && (stack + pending)[q] == stack[q]) || (stack + pending)[q] in pending
    ensures forall c :: c in stack[p + 1..] || c in pending ==> c in (stack + pending)[p + 1..]
  {
    assert (stack + pending)[p + 1..] == stack[p + 1..] + pending;
  }

  lemma {:induction false} OpenTop(ops: Ops, rank: map<int, nat>, memo: map<int, int>, expanding: set<int>, stack: seq<int>, open: seq<bool>,
                                   pending: seq<int>)
    requires Grounded(ops, rank) && stack != [] && stack[|stack|-1] in rank && StackOk(ops, rank, memo, expanding, stack, open)
    requires stack[|stack|-1] !in memo
    requires pending == Pending(ops, WithoutRepeats(Children(ops[stack[|stack|-1]].value.data)), memo, expanding, stack[|stack|-1])
    ensures OpenOk(ops, rank, memo, stack + pending, |stack| - 1)
  {
    NoneExpanding(ops, rank, memo, expanding, stack, open);
    BelowTop(ops, rank, stack, |stack| - 1, pending, memo, expanding);
    hide Grounded, ChildrenBelow, StackOk, Children, Pending, WithoutRepeats;
    var n, stack' := |stack| - 1, stack + pending;
    Appended(stack, pending, n);
    PendingLower(rank, stack, pending);
    forall c | c in Children(ops[stack'[n]].value.data) && HasOp(ops, c) ensures c in memo || c in stack'[n + 1..] {
      assert c in memo || c in pending;
    }
  }

  lemma {:induction false} PendingLower(rank: map<int, nat>, stack: seq<int>, pending: seq<int>)
    requires stack != [] && stack[|stack|-1] in rank
    requires forall c :: c in pending ==> c in rank && rank[c] < rank[stack[|stack|-1]]
    ensures forall q :: |stack| - 1 < q < |stack + pending| ==> (stack + pending)[q] in rank && rank[(stack + pending)[q]] < rank[stack[|stack|-1]]
  {
    var stack' := stack + pending;
    forall q | |stack| - 1 < q < |stack'| ensures stack'[q] in rank && rank[stack'[q]] < rank[stack[|stack|-1]] {
      assert stack'[q] == pending[q - |stack|];
      assert stack'[q] in pending;
    }
  }

  lemma {:induction false} BelowTop(ops: Ops, rank: map<int, nat>, stack: seq<int>, p: nat, pending: seq<int>, memo: map<int, int>, expanding: set<int>)
    requires Grounded(ops, rank) && p < |stack| && stack[p] in rank && HasOp(ops, stack[|stack|-1])
    requires p < |stack| - 1 ==> stack[|stack|-1] in rank && rank[stack[|stack|-1]] < rank[stack[p]]
    requires pending == Pending(ops, WithoutRepeats(Children(ops[stack[|stack|-1]].value.data)), memo, expanding, stack[|stack|-1])
    ensures forall c :: c in pending ==> c in rank && rank[c] < rank[stack[p]]
  {
    var idx := stack[|stack|-1];
    assert ChildrenBelow(ops, rank, ops[idx].value.data, rank[idx]);
  }

  /** On the acyclic part, no reference of the top is itself being expanded: each lies above it in rank. */
  lemma {:induction false} NoneExpanding(ops: Ops, rank: map<int, nat>, memo: map<int, int>, expanding: set<int>, stack: seq<int>, open: seq<bool>)
    requires Grounded(ops, rank) && stack != [] && StackOk(ops, rank, memo, expanding, stack, open)
    requires stack[|stack|-1] in rank
    ensures forall c :: c in Children(ops[stack[|stack|-1]].value.data) && HasOp(ops, c) ==> c !in expanding && c != stack[|stack|-1]
  {
    var idx := stack[|stack|-1];
    assert ChildrenBelow(ops, rank, ops[idx].value.data, rank[idx]);
    forall c | c in Children(ops[idx].value.data) && HasOp(ops, c) && c in expanding ensures false {
      ExpandingAbove(ops, rank, memo, expanding, stack, open, c);
    }
  }

  /** An operation being expanded ranks no lower than the top. */
  lemma {:induction false} ExpandingAbove(ops: Ops, rank: map<int, nat>, memo: map<int, int>, expanding: set<int>, stack: seq<int>, open: seq<bool>, e: int)
    requires stack != [] && StackOk(ops, rank, memo, expanding, stack, open) && e in expanding && e in rank
    ensures stack[|stack|-1] in rank && rank[stack[|stack|-1]] <= rank[e]
  {
    var p :| 0 <= p < |stack| && open[p] && stack[p] == e;
    assert OpenOk(ops, rank, memo, stack, p);
  }

  /** When the top of the stack gets its fingerprint, all its references have theirs. */
  lemma {:induction false} TopSettled(ops: Ops, rank: map<int, nat>, memo: map<int, int>, expanding: set<int>, stack: seq<int>, open: seq<bool>,
                                      pending: seq<int>)
    requires Grounded(ops, rank) && stack != [] && StackOk(ops, rank, memo, expanding, stack, open)
    requires stack[|stack|-1] in rank && stack[|stack|-1] !in memo
    requires pending == Pending(ops, WithoutRepeats(Children(ops[stack[|stack|-1]].value.data)), memo, expanding, stack[|stack|-1])
    requires pending == [] || stack[|stack|-1] in expanding
    ensures Settled(ops, memo, ops[stack[|stack|-1]].value.data)
  {
    var n := |stack| - 1;
    var idx := stack[n];
    if idx in expanding {
      var p :| 0 <= p < |stack| && open[p] && stack[p] == idx;
      assert OpenOk(ops, rank, memo, stack, p);
      assert p == n;
      assert stack[n + 1..] == [];
    } else {
      NoneExpanding(ops, rank, memo, expanding, stack, open);
      forall c | c in Children(ops[idx].value.data) && HasOp(ops, c) ensures c in memo {
        assert c !in pending;
      }
    }
  }

  lemma {:induction false} NowConsistent(ops: Ops, rank: map<int, nat>, digest: Digested -> int, memo: map<int, int>, expanding: set<int>,
                                         stack: seq<int>, open: seq<bool>, pending: seq<int>, fp: int)
    requires Grounded(ops, rank) && Consistent(ops, rank, digest, memo) && stack != [] && StackOk(ops, rank, memo, expanding, stack, open)
    requires stack[|stack|-1] !in memo
    requires pending == Pending(ops, WithoutRepeats(Children(ops[stack[|stack|-1]].value.data)), memo, expanding, stack[|stack|-1])
    requires pending == [] || stack[|stack|-1] in expanding
    requires var op := ops[stack[|stack|-1]].value; fp == digest(Node(op.table, op.kind, ShapeOf(op.data, memo)))
    ensures Consistent(ops, rank, digest, memo[stack[|stack|-1] := fp])
  {
    var idx := stack[|stack|-1];
    if idx in rank {
      TopSettled(ops, rank, memo, expanding, stack, open, pending);
      ShapeIsHashShape(ops, rank, digest, memo, ops[idx].value.data, rank[idx]);
    }
  }

  /** No fingerprint is lost or changed. */
  predicate Extends(memo: map<int, int>, before: map<int, int>) {
    forall idx :: idx in before ==> idx in memo && memo[idx] == before[idx]
  }

  lemma {:induction false} Memoized(memo: map<int, int>, before: map<int, int>, idx: int, fp: int)
    requires Extends(memo, before) && idx !in memo
    ensures Extends(memo[idx := fp], before) && memo[idx := fp].Keys == memo.Keys + {idx}
  {
  }

  lemma {:induction false} RootOnly(ops: Ops, rank: map<int, nat>, memo: map<int, int>, root: int)
    requires HasOp(ops, root)
    ensures StackOk(ops, rank, memo, {}, [root], [false])
  {
  }

  function Operations(ops: Ops): set<int> {
    set i | 0 <= i < |ops| && HasOp(ops, i)
  }

  lemma {:induction false} Smaller(nodes: set<int>, done: set<int>, idx: int)
    requires idx in nodes && idx !in done
    ensures |nodes - (done + {idx})| < |nodes - done|
  {
    assert nodes - (done + {idx}) == (nodes - done) - {idx};
  }

  /** The fingerprints of one file's operations. `rank` is any witness of an acyclic part of the operations. */
  class Fingerprints {
    const ops: Ops
    const digest: Digested -> int
    ghost const rank: map<int, nat>
    var memo: map<int, int>

    ghost predicate Valid()
      reads this
    {
      Grounded(ops, rank) && Consistent(ops, rank, digest, memo)
    }

    constructor (ops: Ops, digest: Digested -> int, ghost rank: map<int, nat>)
      requires Grounded(ops, rank)
      ensures Valid() && this.ops == ops && this.digest == digest && this.rank == rank && memo == map[]
    {
      this.ops, this.digest, this.rank, memo := ops, digest, rank, map[];
    }

    /** The fingerprint of an operation. The loop ends on cyclic operations too: each turn gives an operation its
        fingerprint, or starts expanding one, or drops a stack entry. */
    method OpFp(root: int) returns (fp: int)
      requires Valid()
      modifies this`memo
      ensures root in memo && fp == memo[root]
      ensures Extends(memo, old(memo))
      ensures HasOp(ops, root) ==> Valid() && (root in rank ==> fp == Hash(ops, rank, digest, root))
      ensures !HasOp(ops, root) ==> memo == old(memo)[root := digest(Missing(root))]
    {
      if root in memo {
        return memo[root];
      }
      if !HasOp(ops, root) {
        memo := memo[root := digest(Missing(root))];
        return memo[root];
      }
      var stack, expanding := [root], {};
      ghost var open := [false];
      RootOnly(ops, rank, memo, root);
      while stack != []
        invariant Grounded(ops, rank) && Consistent(ops, rank, digest, memo)
        invariant StackOk(ops, rank, memo, expanding, stack, open)
        invariant if stack == [] then root in memo else stack[0] == root
        invariant Extends(memo, old(memo))
        decreases |Operations(ops) - memo.Keys|, |Operations(ops) - memo.Keys - expanding|, |stack|
      {
        stack, expanding, open := Turn(stack, expanding, open);
      }
      return memo[root];
    }

    /** One turn: drop the top of the stack if it has its fingerprint, expand it once, or give it its fingerprint. */
    method Turn(stack: seq<int>, expanding: set<int>, ghost open: seq<bool>)
      returns (stack': seq<int>, expanding': set<int>, ghost open': seq<bool>)
      requires Valid() && stack != [] && StackOk(ops, rank, memo, expanding, stack, open)
      modifies this`memo
      ensures Valid() && Extends(memo, old(memo)) && StackOk(ops, rank, memo, expanding', stack', open')
      ensures if stack' == [] then stack[0] in memo else stack'[0] == stack[0]
      ensures || |Operations(ops) - memo.Keys| < |Operations(ops) - old(memo).Keys|
              || (memo == old(memo) && |Operations(ops) - memo.Keys - expanding'| < |Operations(ops) - memo.Keys - expanding|)
              || (memo == old(memo) && expanding' == expanding && |stack'| < |stack|)
    {
      var n := |stack| - 1;
      var idx := stack[n];
      assert HasOp(ops, idx) && |open| == |stack|;
      hide StackOk, Grounded, Consistent, Pending, WithoutRepeats, Children, ShapeOf;
      stack', expanding', open' := stack[..n], expanding, open[..n];
      if idx in memo {
        PopKeeps(ops, rank, memo, expanding, stack, open, memo, expanding);
        return;
      }
      var op := ops[idx].value;
      var pending := Pending(ops, WithoutRepeats(Children(op.data)), memo, expanding, idx);
      if pending != [] && idx !in expanding {
        ExpandKeeps(ops, rank, memo, expanding, stack, open, pending);
        Smaller(Operations(ops) - memo.Keys, expanding, idx);
        expanding' := expanding + {idx};
        stack', open' := stack + pending, open[..n] + [true] + Closed(|pending|);
        return;
      }
      var fp := digest(Node(op.table, op.kind, ShapeOf(op.data, memo)));
      NowConsistent(ops, rank, digest, memo, expanding, stack, open, pending, fp);
      PopKeeps(ops, rank, memo, expanding, stack, open, memo[idx := fp], expanding - {idx});
      Smaller(Operations(ops), memo.Keys, idx);
      Memoized(memo, memo, idx, fp);
      memo := memo[idx := fp];
      expanding' := expanding - {idx};
    }

    /** Identity of a target; only an existing operation is fingerprinted. From the fingerprint of any other value the value can
        be read back. */
    method Fingerprint(val: Val) returns (target: Target)
      requires Valid()
      modifies this`memo
      ensures Valid()
      ensures Extends(memo, old(memo))
      ensures !val.Pos? || !HasOp(ops, val.idx) ==> memo == old(memo)
      ensures val.Pos? && HasOp(ops, val.idx) ==> val.idx in memo && target == Placed(val.query, memo[val.idx])
      ensures val.Pos? && val.idx in rank ==> target == Placed(val.query, Hash(ops, rank, digest, val.idx))
      ensures val.Other? || (val.Pos? && !HasOp(ops, val.idx)) ==> target == Referred(val)
      ensures val.Plain? || val.Tuple? ==> target.Valued? && ValueOf(target.shape) == val
      ensures InReach(ops, rank, val) ==> target == FingerprintOf(ops, rank, digest, val)
    {
      match val
      case Pos(query, idx) =>
        if HasOp(ops, idx) {
          var fp := OpFp(idx);
          return Placed(query, fp);
        }
        return Referred(val);
      case Other(_, _) => return Referred(val);
      case _ =>
        ValueBack(val);
        return Valued(ShapeOf(val, map[]));
    }
  }
}
