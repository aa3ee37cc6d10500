/** `_attribute_to_enclosing_tags` of core/SymbolRows.py: an item recorded against a tag that does not contain it moves
    to the innermost tag that does. */
module SymbolAttribution {
  import opened Basics
  import opened SymbolModel

  /** An item on its way to the placement with this index. */
  datatype Move = Move(owner: nat, item: Item)

  function Line(it: Item): int {
    if it.RefItem? then it.line else it.lineS
  }

  function Extent(p: Placement): int {
    p.lineE - p.lineS
  }

  /** The last placement of smallest extent, among the first `n`, that covers the line. */
  function Innermost(ps: seq<Placement>, n: nat, line: int): (r: Option<nat>)
    requires n <= |ps|
    ensures r.Some? ==> r.value < n && ps[r.value].Covers(line, line)
    ensures r.Some? ==> forall i :: 0 <= i < n && ps[i].Covers(line, line) ==>
              Extent(ps[r.value]) < Extent(ps[i]) || (Extent(ps[r.value]) == Extent(ps[i]) && i <= r.value)
    ensures r.None? ==> forall i :: 0 <= i < n ==> !ps[i].Covers(line, line)
  {
    if n == 0 then None
    else
      var best := Innermost(ps, n - 1, line);
      if ps[n-1].Covers(line, line) && (best.None? || Extent(ps[n-1]) <= Extent(ps[best.value])) then Some(n - 1) else best
  }

  /** Where an item recorded against placement `p` ends up. */
  function Owner(ps: seq<Placement>, p: nat, it: Item): (o: nat)
    requires p < |ps|
    ensures o < |ps|
  {
    if ps[p].Inside(it) then p
    else
      match Innermost(ps, |ps|, Line(it))
      case None => p
      case Some(q) => if ps[q].Inside(it) then q else p
  }

  function Keep(ps: seq<Placement>, p: nat, items: seq<Item>): seq<Item>
    requires p < |ps|
  {
    if items == [] then []
    else
      var it := items[|items|-1];
      Keep(ps, p, items[..|items|-1]) + if Owner(ps, p, it) == p then [it] else []
  }

  function Leave(ps: seq<Placement>, p: nat, items: seq<Item>): seq<Move>
    requires p < |ps|
  {
    if items == [] then []
    else
      var it := items[|items|-1];
      Leave(ps, p, items[..|items|-1]) + if Owner(ps, p, it) == p then [] else [Move(Owner(ps, p, it), it)]
  }

  function KeptIn(ps: seq<Placement>, p: nat): Placement
    requires p < |ps|
  {
    ps[p].(refs := Keep(ps, p, ps[p].refs), defs := Keep(ps, p, ps[p].defs))
  }

  function Moves(ps: seq<Placement>, n: nat, kind: Kind): seq<Move>
    requires n <= |ps|
  {
    if n == 0 then [] else Moves(ps, n - 1, kind) + Leave(ps, n - 1, ps[n-1].Items(kind))
  }

  function Receive(p: Placement, it: Item, kind: Kind): Placement {
    if kind == Refs then p.(refs := p.refs + [it]) else p.(defs := p.defs + [it])
  }

  /** The placements once every moved item was appended to its owner. */
  function Deliver(ps: seq<Placement>, moves: seq<Move>, kind: Kind): (r: seq<Placement>)
    ensures |r| == |ps|
  {
    if moves == [] then ps
    else
      var front := Deliver(ps, moves[..|moves|-1], kind);
      var m := moves[|moves|-1];
      if m.owner < |front| then front[m.owner := Receive(front[m.owner], m.item, kind)] else front
  }

  function AllKept(ps: seq<Placement>): (r: seq<Placement>)
    ensures |r| == |ps|
    ensures forall i :: 0 <= i < |ps| ==> r[i] == KeptIn(ps, i)
  {
    seq(|ps|, i requires 0 <= i < |ps| => KeptIn(ps, i))
  }

  function Attributed(ps: seq<Placement>): seq<Placement> {
    Deliver(Deliver(AllKept(ps), Moves(ps, |ps|, Refs), Refs), Moves(ps, |ps|, Defs), Defs)
  }

  // ---------------------------------------------------------------- where an item goes

  /** The last of the smallest tags covering the line. */
  ghost predicate IsInnermost(ps: seq<Placement>, q: nat, line: int) {
    && q < |ps| && ps[q].Covers(line, line)
    && forall i :: 0 <= i < |ps| && ps[i].Covers(line, line) ==> Extent(ps[q]) < Extent(ps[i]) || (Extent(ps[q]) == Extent(ps[i]) && i <= q)
  }

  /** An item stays only if its tag contains it or the innermost tag at its (first) line does not; otherwise its new tag
      contains it and is that innermost tag. A reference stays outside its tag only if no tag contains it. */
  lemma {:induction false} OwnerIsInnermost(ps: seq<Placement>, p: nat, it: Item)
    requires p < |ps|
    ensures var o := Owner(ps, p, it);
            && (o != p ==> !ps[p].Inside(it) && ps[o].Inside(it)
                           && forall i :: 0 <= i < |ps| && ps[i].Covers(Line(it), Line(it)) ==> Extent(ps[o]) <= Extent(ps[i]))
            && (o != p ==> IsInnermost(ps, o, Line(it)))
            && (o == p && !ps[p].Inside(it) && it.RefItem? ==> forall i :: 0 <= i < |ps| ==> !ps[i].Inside(it))
            && (o == p && !ps[p].Inside(it) ==> forall q: nat :: IsInnermost(ps, q, Line(it)) ==> !ps[q].Inside(it))
  {
    var best := Innermost(ps, |ps|, Line(it));
    forall q: nat | IsInnermost(ps, q, Line(it)) ensures best == Some(q) {
      assert best.Some?;
      var r := best.value;
      assert Extent(ps[r]) == Extent(ps[q]);
    }
  }

  // ---------------------------------------------------------------- conservation

  function Count(items: seq<Item>, x: Item): nat {
    if items == [] then 0 else Count(items[..|items|-1], x) + if items[|items|-1] == x then 1 else 0
  }

  /** How often an item is recorded against the first `n` placements. */
  function CountAll(ps: seq<Placement>, n: nat, kind: Kind, x: Item): nat
    requires n <= |ps|
  {
    if n == 0 then 0 else CountAll(ps, n - 1, kind, x) + Count(ps[n-1].Items(kind), x)
  }

  function CountMoved(moves: seq<Move>, x: Item): nat {
    if moves == [] then 0 else CountMoved(moves[..|moves|-1], x) + if moves[|moves|-1].item == x then 1 else 0
  }

  lemma {:induction false} CountAppend(items: seq<Item>, it: Item, x: Item)
    ensures Count(items + [it], x) == Count(items, x) + if it == x then 1 else 0
  {
    assert (items + [it])[..|items|] == items;
  }

  lemma {:induction false} CountMovedConcat(xs: seq<Move>, ys: seq<Move>, x: Item)
    ensures CountMoved(xs + ys, x) == CountMoved(xs, x) + CountMoved(ys, x)
  {
    if ys == [] {
      assert xs + ys == xs;
    } else {
      assert (xs + ys)[..|xs + ys|-1] == xs + ys[..|ys|-1];
      CountMovedConcat(xs, ys[..|ys|-1], x);
    }
  }

  lemma {:induction false} CountUpdate(ps: seq<Placement>, n: nat, i: nat, p: Placement, kind: Kind, x: Item)
    requires i < |ps| && n <= |ps|
    ensures CountAll(ps[i := p], n, kind, x)
         == CountAll(ps, n, kind, x) + if i < n then Count(p.Items(kind), x) - Count(ps[i].Items(kind), x) else 0
  {
    if n > 0 {
      CountUpdate(ps, n - 1, i, p, kind, x);
    }
  }

  lemma {:induction false} ReceiveItems(p: Placement, it: Item, kind: Kind)
    ensures Receive(p, it, kind).Items(kind) == p.Items(kind) + [it]
    ensures forall other :: other != kind ==> Receive(p, it, kind).Items(other) == p.Items(other)
  {
  }

  lemma {:induction false} DeliverConserves(ps: seq<Placement>, moves: seq<Move>, kind: Kind, other: Kind, x: Item)
    requires forall i :: 0 <= i < |moves| ==> moves[i].owner < |ps|
    ensures CountAll(Deliver(ps, moves, kind), |ps|, other, x)
         == CountAll(ps, |ps|, other, x) + if other == kind then CountMoved(moves, x) else 0
  {
    if moves != [] {
      var front, m := moves[..|moves|-1], moves[|moves|-1];
      DeliverConserves(ps, front, kind, other, x);
      var qs := Deliver(ps, front, kind);
      ReceiveItems(qs[m.owner], m.item, kind);
      CountUpdate(qs, |ps|, m.owner, Receive(qs[m.owner], m.item, kind), other, x);
      CountAppend(qs[m.owner].Items(kind), m.item, x);
    }
  }

  lemma {:induction false} KeepAndLeave(ps: seq<Placement>, p: nat, items: seq<Item>, x: Item)
    requires p < |ps|
    ensures Count(Keep(ps, p, items), x) + CountMoved(Leave(ps, p, items), x) == Count(items, x)
  {
    if items != [] {
      var front, it := items[..|items|-1], items[|items|-1];
      KeepAndLeave(ps, p, front, x);
      if Owner(ps, p, it) == p {
        CountAppend(Keep(ps, p, front), it, x);
        assert Leave(ps, p, items) == Leave(ps, p, front);
      } else {
        var m := Move(Owner(ps, p, it), it);
        CountMovedConcat(Leave(ps, p, front), [m], x);
        assert [m][..0] == [] && Keep(ps, p, items) == Keep(ps, p, front);
      }
    }
  }

  lemma {:induction false} LeaveInRange(ps: seq<Placement>, p: nat, items: seq<Item>)
    requires p < |ps|
    ensures forall i :: 0 <= i < |Leave(ps, p, items)| ==> Leave(ps, p, items)[i].owner < |ps|
  {
    if items != [] {
      LeaveInRange(ps, p, items[..|items|-1]);
    }
  }

  lemma {:induction false} MovesInRange(ps: seq<Placement>, n: nat, kind: Kind)
    requires n <= |ps|
    ensures forall i :: 0 <= i < |Moves(ps, n, kind)| ==> Moves(ps, n, kind)[i].owner < |ps|
  {
    if n > 0 {
      MovesInRange(ps, n - 1, kind);
      LeaveInRange(ps, n - 1, ps[n-1].Items(kind));
    }
  }

  lemma KeptAndMoved(ps: seq<Placement>, n: nat, kind: Kind, x: Item)
    requires n <= |ps|
    ensures CountAll(AllKept(ps), n, kind, x) + CountMoved(Moves(ps, n, kind), x) == CountAll(ps, n, kind, x)
    decreases n
  {
    if n > 0 {
      KeptAndMoved(ps, n - 1, kind, x);
      KeptStep(ps, n, kind, x);
    }
  }

  lemma {:induction false} KeptStep(ps: seq<Placement>, n: nat, kind: Kind, x: Item)
    requires 0 < n <= |ps|
    ensures CountAll(AllKept(ps), n, kind, x) - CountAll(AllKept(ps), n - 1, kind, x)
          + CountMoved(Moves(ps, n, kind), x) - CountMoved(Moves(ps, n - 1, kind), x)
         == CountAll(ps, n, kind, x) - CountAll(ps, n - 1, kind, x)
  {
    hide CountMoved, Keep, Leave, Owner;
    KeepAndLeave(ps, n - 1, ps[n-1].Items(kind), x);
    CountMovedConcat(Moves(ps, n - 1, kind), Leave(ps, n - 1, ps[n-1].Items(kind)), x);
    assert AllKept(ps)[n-1].Items(kind) == Keep(ps, n - 1, ps[n-1].Items(kind));
  }

  /** Attribution neither loses nor duplicates an item. */
  lemma {:induction false} AttributionConserves(ps: seq<Placement>, kind: Kind, x: Item)
    ensures |Attributed(ps)| == |ps|
    ensures CountAll(Attributed(ps), |ps|, kind, x) == CountAll(ps, |ps|, kind, x)
  {
    var n := |ps|;
    KeptAndMoved(ps, n, kind, x);
    MovesInRange(ps, n, Refs);
    MovesInRange(ps, n, Defs);
    DeliverConserves(AllKept(ps), Moves(ps, n, Refs), Refs, kind, x);
    DeliverConserves(Deliver(AllKept(ps), Moves(ps, n, Refs), Refs), Moves(ps, n, Defs), Defs, kind, x);
  }

  // ---------------------------------------------------------------- what a placement holds afterwards

  lemma {:induction false} KeepHas(ps: seq<Placement>, p: nat, items: seq<Item>, it: Item)
    requires p < |ps|
    ensures it in Keep(ps, p, items) <==> it in items && Owner(ps, p, it) == p
  {
    if items != [] {
      KeepHas(ps, p, items[..|items|-1], it);
      assert items == items[..|items|-1] + [items[|items|-1]];
    }
  }

  lemma {:induction false} LeaveHas(ps: seq<Placement>, p: nat, items: seq<Item>, m: Move)
    requires p < |ps|
    ensures m in Leave(ps, p, items) <==> m.item in items && Owner(ps, p, m.item) == m.owner != p
  {
    if items != [] {
      LeaveHas(ps, p, items[..|items|-1], m);
      assert items == items[..|items|-1] + [items[|items|-1]];
    }
  }

  lemma {:induction false} MovesHas(ps: seq<Placement>, n: nat, kind: Kind, m: Move)
    requires n <= |ps|
    ensures m in Moves(ps, n, kind) <==> exists p :: 0 <= p < n && m.item in ps[p].Items(kind) && Owner(ps, p, m.item) == m.owner != p
  {
    hide Owner, Innermost, Leave;
    if n > 0 {
      MovesHas(ps, n - 1, kind, m);
      LeaveHas(ps, n - 1, ps[n-1].Items(kind), m);
    }
  }

  lemma {:induction false} DeliverHas(ps: seq<Placement>, moves: seq<Move>, kind: Kind, o: nat, it: Item)
    requires o < |ps|
    ensures it in Deliver(ps, moves, kind)[o].Items(kind) <==> it in ps[o].Items(kind) || Move(o, it) in moves
    ensures forall other :: other != kind ==> Deliver(ps, moves, kind)[o].Items(other) == ps[o].Items(other)
    ensures Deliver(ps, moves, kind)[o].(refs := [], defs := []) == ps[o].(refs := [], defs := [])
  {
    if moves != [] {
      var front := moves[..|moves|-1];
      DeliverHas(ps, front, kind, o, it);
      assert moves == front + [moves[|moves|-1]];
    }
  }

  /** A placement ends up with exactly the items that belong to it, and is otherwise unchanged. */
  lemma {:induction false} AttributedHas(ps: seq<Placement>, o: nat, kind: Kind, it: Item)
    requires o < |ps|
    ensures |Attributed(ps)| == |ps|
    ensures it in Attributed(ps)[o].Items(kind) <==> exists p :: 0 <= p < |ps| && it in ps[p].Items(kind) && Owner(ps, p, it) == o
    ensures Attributed(ps)[o].(refs := [], defs := []) == ps[o].(refs := [], defs := [])
  {
    var n := |ps|;
    var refs := Deliver(AllKept(ps), Moves(ps, n, Refs), Refs);
    DeliverHas(AllKept(ps), Moves(ps, n, Refs), Refs, o, it);
    DeliverHas(refs, Moves(ps, n, Defs), Defs, o, it);
    KeepHas(ps, o, ps[o].Items(kind), it);
    MovesHas(ps, n, kind, Move(o, it));
    var moves := Moves(ps, n, kind);
    assert it in Attributed(ps)[o].Items(kind) <==> it in Keep(ps, o, ps[o].Items(kind)) || Move(o, it) in moves;
  }

  /** Attribution keeps the tags, their places, and the kind of every item. */
  lemma {:induction false} AttributedWellFormed(ps: seq<Placement>)
    requires forall i :: 0 <= i < |ps| ==> ps[i].WellKinded()
    ensures |Attributed(ps)| == |ps|
    ensures forall i :: 0 <= i < |ps| ==> Attributed(ps)[i].WellKinded()
    ensures forall i :: 0 <= i < |ps| ==> Attributed(ps)[i].(refs := [], defs := []) == ps[i].(refs := [], defs := [])
  {
    forall i | 0 <= i < |ps|
      ensures |Attributed(ps)| == |ps| && Attributed(ps)[i].WellKinded()
      ensures Attributed(ps)[i].(refs := [], defs := []) == ps[i].(refs := [], defs := [])
    {
      var p := Attributed(ps)[i];
      forall k | 0 <= k < |p.refs| ensures p.refs[k].RefItem? {
        AttributedHas(ps, i, Refs, p.refs[k]);
        assert p.refs[k] in p.Items(Refs);
      }
      forall k | 0 <= k < |p.defs| ensures p.defs[k].DefItem? {
        AttributedHas(ps, i, Defs, p.defs[k]);
        assert p.defs[k] in p.Items(Defs);
      }
      AttributedHas(ps, i, Refs, RefItem(NO_FILE, NO_FILE, 0, 0, 0));
    }
  }

  // ---------------------------------------------------------------- the code: paint lines from the widest tag inwards

  ghost predicate WiderFirst(ps: seq<Placement>, a: nat, b: nat)
    requires a < |ps| && b < |ps|
  {
    Extent(ps[a]) > Extent(ps[b]) || (Extent(ps[a]) == Extent(ps[b]) && a < b)
  }

  /** `sorted(placements, key=extent, reverse=True)`, as indexes: stable, widest first. */
  method SortWidestFirst(ps: seq<Placement>) returns (order: seq<nat>)
    ensures forall x :: 0 <= x < |order| ==> order[x] < |ps|
    ensures forall i :: 0 <= i < |ps| ==> i in order
    ensures forall x, y :: 0 <= x < y < |order| ==> WiderFirst(ps, order[x], order[y])
  {
    order := [];
    for i := 0 to |ps|
      invariant forall x :: 0 <= x < |order| ==> order[x] < i
      invariant forall k :: 0 <= k < i ==> k in order
      invariant forall x, y :: 0 <= x < y < |order| ==> WiderFirst(ps, order[x], order[y])
    {
      var j := 0;
      while j < |order| && Extent(ps[order[j]]) >= Extent(ps[i])
        invariant 0 <= j <= |order|
        invariant forall x :: 0 <= x < j ==> Extent(ps[order[x]]) >= Extent(ps[i])
      {
        j := j + 1;
      }
      assert forall y :: j <= y < |order| ==> Extent(ps[order[y]]) < Extent(ps[i]);
      ghost var was := order;
      order := order[..j] + [i] + order[j..];
      Inserted(was, j, i);
    }
  }

  lemma {:induction false} Inserted(was: seq<nat>, j: nat, i: nat)
    requires j <= |was|
    ensures forall k :: k in was[..j] + [i] + was[j..] <==> k == i || k in was
  {
    assert was == was[..j] + was[j..];
  }

  /** Give every line of the placement to it. */
  method Paint(innermost: map<int, nat>, p: Placement, index: nat) returns (painted: map<int, nat>)
    ensures forall line :: line in painted <==> line in innermost || p.Covers(line, line)
    ensures forall line :: line in painted ==> painted[line] == if p.Covers(line, line) then index else innermost[line]
  {
    painted := innermost;
    var line := p.lineS;
    while line <= p.lineE
      invariant p.lineS <= line && (line <= p.lineE + 1 || line == p.lineS)
      invariant forall l :: l in painted <==> l in innermost || p.lineS <= l < line
      invariant forall l :: l in painted ==> painted[l] == if p.lineS <= l < line then index else innermost[l]
      decreases p.lineE - line
    {
      painted := painted[line := index];
      line := line + 1;
    }
  }

  lemma {:induction false} PaintOne(ps: seq<Placement>, order: seq<nat>, k: nat, before: map<int, nat>, after: map<int, nat>)
    requires k < |order| && forall x :: 0 <= x < |order| ==> order[x] < |ps|
    requires Painted(ps, order, k, before)
    requires forall line :: line in after <==> line in before || ps[order[k]].Covers(line, line)
    requires forall line :: line in after ==> after[line] == if ps[order[k]].Covers(line, line) then order[k] else before[line]
    ensures Painted(ps, order, k + 1, after)
  {
    forall line | line in after ensures exists x :: LastCovering(ps, order, k + 1, line, x) && after[line] == order[x] {
      if ps[order[k]].Covers(line, line) {
        assert LastCovering(ps, order, k + 1, line, k);
      } else {
        var x :| LastCovering(ps, order, k, line, x) && before[line] == order[x];
        assert LastCovering(ps, order, k + 1, line, x);
      }
    }
  }

  /** The owner of every line, painted over from the widest placement inwards. */
  method PaintLines(ps: seq<Placement>) returns (innermost: map<int, nat>)
    ensures forall line :: line in innermost <==> Innermost(ps, |ps|, line).Some?
    ensures forall line :: line in innermost ==> Some(innermost[line]) == Innermost(ps, |ps|, line)
  {
    var order := SortWidestFirst(ps);
    innermost := map[];
    for k := 0 to |order|
      invariant Painted(ps, order, k, innermost)
    {
      var painted := Paint(innermost, ps[order[k]], order[k]);
      PaintOne(ps, order, k, innermost, painted);
      innermost := painted;
    }
    forall line
      ensures line in innermost <==> Innermost(ps, |ps|, line).Some?
      ensures line in innermost ==> Some(innermost[line]) == Innermost(ps, |ps|, line)
    {
      PaintedLine(ps, order, innermost, line);
    }
  }

  /** Each line holds the last of the first `k` placements in `order` that covers it. */
  ghost predicate Painted(ps: seq<Placement>, order: seq<nat>, k: nat, innermost: map<int, nat>)
    requires k <= |order| && forall x :: 0 <= x < |order| ==> order[x] < |ps|
  {
    && (forall line :: line !in innermost ==> forall x :: 0 <= x < k ==> !ps[order[x]].Covers(line, line))
    && (forall line :: line in innermost ==> exists x :: LastCovering(ps, order, k, line, x) && innermost[line] == order[x])
  }

  ghost predicate LastCovering(ps: seq<Placement>, order: seq<nat>, k: nat, line: int, x: int)
    requires k <= |order| && forall x :: 0 <= x < |order| ==> order[x] < |ps|
  {
    0 <= x < k && ps[order[x]].Covers(line, line) && forall y :: x < y < k ==> !ps[order[y]].Covers(line, line)
  }

  lemma {:induction false} PaintedLine(ps: seq<Placement>, order: seq<nat>, innermost: map<int, nat>, line: int)
    requires forall x :: 0 <= x < |order| ==> order[x] < |ps|
    requires forall i :: 0 <= i < |ps| ==> i in order
    requires forall x, y :: 0 <= x < y < |order| ==> WiderFirst(ps, order[x], order[y])
    requires Painted(ps, order, |order|, innermost)
    ensures line in innermost <==> Innermost(ps, |ps|, line).Some?
    ensures line in innermost ==> Some(innermost[line]) == Innermost(ps, |ps|, line)
  {
    var best := Innermost(ps, |ps|, line);
    if line in innermost {
      var x :| LastCovering(ps, order, |order|, line, x) && innermost[line] == order[x];
      assert best.Some? by {
        assert ps[order[x]].Covers(line, line);
      }
      assert best.value in order;
      var y :| 0 <= y < |order| && order[y] == best.value;
      assert ps[order[y]].Covers(line, line);
    } else {
      forall i | 0 <= i < |ps| ensures !ps[i].Covers(line, line) {
        assert i in order;
      }
    }
  }
}
