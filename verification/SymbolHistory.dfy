/** From what the parsers record to what the views return (core/SymbolRows.py): registering and recording, attribution,
    `finish()` and the views, composed over whole files and over any history of files. */
module SymbolHistory {
  import opened Basics
  import opened SymbolModel
  import opened SymbolFinish
  import opened SymbolAttribution
  import SymbolCollector

  /** A call of a parser: a tag placed in the file, or an item recorded against a tag. */
  datatype Call =
    | Register(tag: int, recycled: bool, lineS: int, lineE: int, charS: int, code: string)
    | Record(tag: int, item: Item)

  /** What the collector holds. */
  datatype Gathered = Gathered(ps: seq<Placement>, looseRefs: seq<Loose>, looseDefs: seq<Loose>)
  {
    function LooseOf(kind: Kind): seq<Loose> {
      if kind == Refs then looseRefs else looseDefs
    }
  }

  /** The first placement of the tag, or their number if there is none. */
  function Find(ps: seq<Placement>, tag: int): (j: nat)
    ensures j <= |ps| && (j < |ps| ==> ps[j].tag == tag) && forall i :: 0 <= i < j ==> ps[i].tag != tag
  {
    if ps == [] then 0
    else
      var j := Find(ps[..|ps|-1], tag);
      if j < |ps| - 1 then j else if ps[|ps|-1].tag == tag then |ps| - 1 else |ps|
  }

  predicate Known(ps: seq<Placement>, tag: int) {
    tag != 0 && Find(ps, tag) < |ps|
  }

  function After(g: Gathered, call: Call): Gathered {
    match call
    case Register(tag, recycled, lineS, lineE, charS, code) =>
      if tag == 0 || Known(g.ps, tag) then g
      else g.(ps := g.ps + [Placement(tag, recycled, lineS, lineE, if charS == 0 then 1 else charS, code, [], [])])
    case Record(tag, it) =>
      if Known(g.ps, tag) then g.(ps := g.ps[Find(g.ps, tag) := Receive(g.ps[Find(g.ps, tag)], it, it.Kind())])
      else if it.RefItem? then g.(looseRefs := g.looseRefs + [Loose(tag, it)])
      else g.(looseDefs := g.looseDefs + [Loose(tag, it)])
  }

  function Gather(calls: seq<Call>): Gathered {
    if calls == [] then Gathered([], [], []) else After(Gather(calls[..|calls|-1]), calls[|calls|-1])
  }

  // ---------------------------------------------------------------- the rows of the calls

  /** The tag under which an item recorded in state `g` is shown: that of its owner among all placements of the file. */
  function ShownUnder(g: Gathered, ps: seq<Placement>, tag: int, it: Item): int {
    if Known(g.ps, tag) && Find(g.ps, tag) < |ps| then ps[Owner(ps, Find(g.ps, tag), it)].tag else tag
  }

  /** One row for every recorded item of the kind, in order. */
  function CallRows(names: Names, blob: int, ps: seq<Placement>, calls: seq<Call>, kind: Kind): seq<ViewRow> {
    if calls == [] then []
    else
      var n := |calls| - 1;
      CallRows(names, blob, ps, calls[..n], kind) +
      if calls[n].Record? && calls[n].item.Kind() == kind
      then [RowOf(names, blob, ShownUnder(Gather(calls[..n]), ps, calls[n].tag, calls[n].item), calls[n].item)] else []
  }

  /** What a file's calls mean. */
  function Meaning(names: Names, blob: int, calls: seq<Call>, kind: Kind): seq<ViewRow> {
    CallRows(names, blob, Gather(calls).ps, calls, kind)
  }

  // ---------------------------------------------------------------- attribution, with the tags

  /** The rows of items recorded against placement `p`, each under its owner's tag. */
  function OwnedRows(names: Names, blob: int, ps: seq<Placement>, p: nat, items: seq<Item>): seq<ViewRow>
    requires p < |ps|
  {
    if items == [] then []
    else
      var it := items[|items|-1];
      OwnedRows(names, blob, ps, p, items[..|items|-1]) + [RowOf(names, blob, ps[Owner(ps, p, it)].tag, it)]
  }

  /** The rows of the first `n` placements of `held`, owners taken among `ps`. */
  function AllOwned(names: Names, blob: int, ps: seq<Placement>, held: seq<Placement>, n: nat, kind: Kind): seq<ViewRow>
    requires n <= |held| <= |ps|
  {
    if n == 0 then [] else AllOwned(names, blob, ps, held, n - 1, kind) + OwnedRows(names, blob, ps, n - 1, held[n - 1].Items(kind))
  }

  function MoveRows(names: Names, blob: int, ps: seq<Placement>, moves: seq<Move>): seq<ViewRow> {
    if moves == [] then []
    else
      var m := moves[|moves|-1];
      MoveRows(names, blob, ps, moves[..|moves|-1]) + if m.owner < |ps| then [RowOf(names, blob, ps[m.owner].tag, m.item)] else []
  }

  predicate SameTags(ps: seq<Placement>, qs: seq<Placement>) {
    |ps| == |qs| && forall i :: 0 <= i < |ps| ==> ps[i].tag == qs[i].tag
  }

  /** `b` holds what `a` holds and `x`, in any order. */
  ghost predicate Adds<T>(a: seq<T>, b: seq<T>, x: seq<T>) {
    multiset(b) == multiset(a) + multiset(x)
  }

  lemma {:induction false} AddsPair<T>(a: seq<T>, b: seq<T>, x: seq<T>, c: seq<T>, d: seq<T>, y: seq<T>)
    requires Adds(a, b, x) && Adds(c, d, y)
    ensures Adds(a + c, b + d, x + y)
  {
  }

  lemma {:induction false} AddsMore<T>(a: seq<T>, b: seq<T>, c: seq<T>, x: seq<T>, y: seq<T>)
    requires Adds(a, b, x) && Adds(b, c, y)
    ensures Adds(a, c, x + y)
  {
  }

  lemma {:induction false} AddsLast<T>(a: seq<T>, x: seq<T>)
    ensures Adds(a, a + x, x) && Adds(a, a, [])
  {
  }

  /** One part of a concatenation grows. */
  lemma {:induction false} AddsPart<T>(a: seq<T>, b: seq<T>, x: seq<T>, rest: seq<T>)
    requires Adds(a, b, x)
    ensures Adds(a + rest, b + rest, x) && Adds(rest + a, rest + b, x)
  {
    AddsLast(rest, []);
    AddsPair(a, b, x, rest, rest, []);
    AddsPair(rest, rest, [], a, b, x);
    assert x + [] == x && [] + x == x;
  }

  lemma {:induction false} MoveRowsConcat(names: Names, blob: int, ps: seq<Placement>, xs: seq<Move>, ys: seq<Move>)
    ensures MoveRows(names, blob, ps, xs + ys) == MoveRows(names, blob, ps, xs) + MoveRows(names, blob, ps, ys)
  {
    if ys == [] {
      assert xs + ys == xs;
    } else {
      assert (xs + ys)[..|xs + ys|-1] == xs + ys[..|ys|-1];
      MoveRowsConcat(names, blob, ps, xs, ys[..|ys|-1]);
    }
  }

  lemma {:induction false} ItemRowsLast(names: Names, blob: int, tag: int, items: seq<Item>, it: Item)
    ensures ItemRows(names, blob, tag, items + [it]) == ItemRows(names, blob, tag, items) + [RowOf(names, blob, tag, it)]
  {
    assert (items + [it])[..|items|] == items;
  }

  lemma {:induction false} MoveRowsLast(names: Names, blob: int, ps: seq<Placement>, moves: seq<Move>, m: Move)
    requires m.owner < |ps|
    ensures MoveRows(names, blob, ps, moves + [m]) == MoveRows(names, blob, ps, moves) + [RowOf(names, blob, ps[m.owner].tag, m.item)]
  {
    assert (moves + [m])[..|moves|] == moves;
  }

  lemma {:induction false} OwnedRowsLast(names: Names, blob: int, ps: seq<Placement>, p: nat, items: seq<Item>, it: Item)
    requires p < |ps|
    ensures OwnedRows(names, blob, ps, p, items + [it]) == OwnedRows(names, blob, ps, p, items) + [RowOf(names, blob, ps[Owner(ps, p, it)].tag, it)]
  {
    assert (items + [it])[..|items|] == items;
  }

  /** The rows of a placement that receives an item. */
  lemma {:induction false} ReceivedRows(names: Names, blob: int, p: Placement, it: Item, kind: Kind, other: Kind)
    ensures Adds(ItemRows(names, blob, p.tag, p.Items(other)), ItemRows(names, blob, p.tag, Receive(p, it, kind).Items(other)),
                 if other == kind then [RowOf(names, blob, p.tag, it)] else [])
  {
    ReceiveItems(p, it, kind);
    ItemRowsLast(names, blob, p.tag, p.Items(kind), it);
    hide ItemRows, Adds;
    AddsLast(ItemRows(names, blob, p.tag, p.Items(other)), [RowOf(names, blob, p.tag, it)]);
  }

  lemma {:induction false} PlacedLast(names: Names, blob: int, ps: seq<Placement>, kind: Kind)
    requires ps != []
    ensures var n := |ps| - 1;
            PlacedRows(names, blob, ps, kind) == PlacedRows(names, blob, ps[..n], kind) + ItemRows(names, blob, ps[n].tag, ps[n].Items(kind))
  {
  }

  /** A placement receives an item: its row is added. */
  lemma {:induction false} PlacedUpdate(names: Names, blob: int, ps: seq<Placement>, o: nat, it: Item, kind: Kind, other: Kind)
    requires o < |ps|
    ensures Adds(PlacedRows(names, blob, ps, other), PlacedRows(names, blob, ps[o := Receive(ps[o], it, kind)], other),
                 if other == kind then [RowOf(names, blob, ps[o].tag, it)] else [])
    decreases |ps|
  {
    hide PlacedRows, ItemRows, Adds, RowOf;
    var qs := ps[o := Receive(ps[o], it, kind)];
    var n := |ps| - 1;
    var row := if other == kind then [RowOf(names, blob, ps[o].tag, it)] else [];
    PlacedLast(names, blob, ps, other);
    PlacedLast(names, blob, qs, other);
    if o < n {
      assert qs[..n] == ps[..n][o := Receive(ps[o], it, kind)] && qs[n] == ps[n];
      PlacedUpdate(names, blob, ps[..n], o, it, kind, other);
      AddsPart(PlacedRows(names, blob, ps[..n], other), PlacedRows(names, blob, qs[..n], other), row,
               ItemRows(names, blob, ps[n].tag, ps[n].Items(other)));
    } else {
      assert qs[..n] == ps[..n] && qs[n].tag == ps[n].tag;
      ReceivedRows(names, blob, ps[n], it, kind, other);
      AddsPart(ItemRows(names, blob, ps[n].tag, ps[n].Items(other)), ItemRows(names, blob, ps[n].tag, qs[n].Items(other)), row,
               PlacedRows(names, blob, ps[..n], other));
    }
  }

  lemma {:induction false} DeliverTags(ps: seq<Placement>, moves: seq<Move>, kind: Kind)
    ensures SameTags(Deliver(ps, moves, kind), ps)
  {
    if moves != [] {
      DeliverTags(ps, moves[..|moves|-1], kind);
    }
  }

  lemma {:induction false} DeliverRows(names: Names, blob: int, ps: seq<Placement>, moves: seq<Move>, kind: Kind, other: Kind)
    ensures Adds(PlacedRows(names, blob, ps, other), PlacedRows(names, blob, Deliver(ps, moves, kind), other),
                 if other == kind then MoveRows(names, blob, ps, moves) else [])
  {
    var rows := PlacedRows(names, blob, ps, other);
    hide Adds, PlacedRows, RowOf;
    if moves == [] {
      AddsLast(rows, []);
    } else {
      var front, m := moves[..|moves|-1], moves[|moves|-1];
      var qs := Deliver(ps, front, kind);
      DeliverRows(names, blob, ps, front, kind, other);
      DeliverLast(names, blob, ps, moves, kind);
      hide MoveRows, Deliver;
      if m.owner < |ps| {
        PlacedUpdate(names, blob, qs, m.owner, m.item, kind, other);
        var row := if other == kind then [RowOf(names, blob, ps[m.owner].tag, m.item)] else [];
        AddsMore(rows, PlacedRows(names, blob, qs, other), PlacedRows(names, blob, Deliver(ps, moves, kind), other),
                 if other == kind then MoveRows(names, blob, ps, front) else [], row);
        assert other != kind ==> [] + row == [];
      } else {
        assert MoveRows(names, blob, ps, front) + [] == MoveRows(names, blob, ps, front);
      }
    }
  }

  lemma {:induction false} DeliverLast(names: Names, blob: int, ps: seq<Placement>, moves: seq<Move>, kind: Kind)
    requires moves != []
    ensures var front, m := moves[..|moves|-1], moves[|moves|-1];
            var qs := Deliver(ps, front, kind);
            && |qs| == |ps| && (forall i :: 0 <= i < |ps| ==> qs[i].tag == ps[i].tag)
            && Deliver(ps, moves, kind) == (if m.owner < |ps| then qs[m.owner := Receive(qs[m.owner], m.item, kind)] else qs)
            && MoveRows(names, blob, ps, moves)
               == MoveRows(names, blob, ps, front) + (if m.owner < |ps| then [RowOf(names, blob, ps[m.owner].tag, m.item)] else [])
  {
    DeliverTags(ps, moves[..|moves|-1], kind);
    hide RowOf;
  }

  /** What stays and what leaves are what was recorded, each under its owner's tag. */
  lemma {:induction false} KeepLeaveRows(names: Names, blob: int, ps: seq<Placement>, p: nat, items: seq<Item>)
    requires p < |ps|
    ensures Adds(ItemRows(names, blob, ps[p].tag, Keep(ps, p, items)), OwnedRows(names, blob, ps, p, items),
                 MoveRows(names, blob, ps, Leave(ps, p, items)))
  {
    if items != [] {
      var front, it := items[..|items|-1], items[|items|-1];
      var o := Owner(ps, p, it);
      var row := [RowOf(names, blob, ps[o].tag, it)];
      KeepLeaveRows(names, blob, ps, p, front);
      LastKeptOrLeft(names, blob, ps, p, items);
      hide Keep, Leave, ItemRows, MoveRows, OwnedRows, Owner, Adds, RowOf;
      var a, b := ItemRows(names, blob, ps[p].tag, Keep(ps, p, front)), OwnedRows(names, blob, ps, p, front);
      var x := MoveRows(names, blob, ps, Leave(ps, p, front));
      if o == p {
        AddsPart(a, b, x, row);
      } else {
        AddsLast(b, row);
        AddsMore(a, b, b + row, x, row);
      }
    }
  }

  lemma {:induction false} LastKeptOrLeft(names: Names, blob: int, ps: seq<Placement>, p: nat, items: seq<Item>)
    requires p < |ps| && items != []
    ensures var front, it := items[..|items|-1], items[|items|-1];
            var o := Owner(ps, p, it);
            var row := [RowOf(names, blob, ps[o].tag, it)];
            && OwnedRows(names, blob, ps, p, items) == OwnedRows(names, blob, ps, p, front) + row
            && ItemRows(names, blob, ps[p].tag, Keep(ps, p, items))
               == ItemRows(names, blob, ps[p].tag, Keep(ps, p, front)) + (if o == p then row else [])
            && MoveRows(names, blob, ps, Leave(ps, p, items))
               == MoveRows(names, blob, ps, Leave(ps, p, front)) + (if o == p then [] else row)
  {
    var front, it := items[..|items|-1], items[|items|-1];
    var o := Owner(ps, p, it);
    hide RowOf, Owner;
    ItemRowsLast(names, blob, ps[p].tag, Keep(ps, p, front), it);
    MoveRowsLast(names, blob, ps, Leave(ps, p, front), Move(o, it));
    hide ItemRows, MoveRows;
    assert Keep(ps, p, items) == Keep(ps, p, front) + if o == p then [it] else [];
    assert Leave(ps, p, items) == Leave(ps, p, front) + if o == p then [] else [Move(o, it)];
    hide Keep, Leave;
    assert Keep(ps, p, front) + [] == Keep(ps, p, front) && Leave(ps, p, front) + [] == Leave(ps, p, front);
  }

  lemma {:induction false} KeptAndMovedRows(names: Names, blob: int, ps: seq<Placement>, n: nat, kind: Kind)
    requires n <= |ps|
    ensures Adds(PlacedRows(names, blob, AllKept(ps)[..n], kind), AllOwned(names, blob, ps, ps, n, kind),
                 MoveRows(names, blob, ps, Moves(ps, n, kind)))
  {
    hide Adds, ItemRows, OwnedRows, Keep, Leave, PlacedRows, MoveRows, Moves, AllOwned, AllKept;
    if n > 0 {
      var items := ps[n - 1].Items(kind);
      KeptAndMovedRows(names, blob, ps, n - 1, kind);
      KeepLeaveRows(names, blob, ps, n - 1, items);
      LastPlacement(names, blob, ps, n, kind);
      AddsPair(PlacedRows(names, blob, AllKept(ps)[..n - 1], kind), AllOwned(names, blob, ps, ps, n - 1, kind),
               MoveRows(names, blob, ps, Moves(ps, n - 1, kind)),
               ItemRows(names, blob, ps[n - 1].tag, Keep(ps, n - 1, items)), OwnedRows(names, blob, ps, n - 1, items),
               MoveRows(names, blob, ps, Leave(ps, n - 1, items)));
    } else {
      NothingPlaced(names, blob, ps, kind);
    }
  }

  lemma {:induction false} NothingPlaced(names: Names, blob: int, ps: seq<Placement>, kind: Kind)
    ensures Adds(PlacedRows(names, blob, AllKept(ps)[..0], kind), AllOwned(names, blob, ps, ps, 0, kind), MoveRows(names, blob, ps, Moves(ps, 0, kind)))
  {
    assert AllKept(ps)[..0] == [];
  }

  lemma {:induction false} LastPlacement(names: Names, blob: int, ps: seq<Placement>, n: nat, kind: Kind)
    requires 0 < n <= |ps|
    ensures var items := ps[n - 1].Items(kind);
            && PlacedRows(names, blob, AllKept(ps)[..n], kind)
               == PlacedRows(names, blob, AllKept(ps)[..n - 1], kind) + ItemRows(names, blob, ps[n - 1].tag, Keep(ps, n - 1, items))
            && AllOwned(names, blob, ps, ps, n, kind) == AllOwned(names, blob, ps, ps, n - 1, kind) + OwnedRows(names, blob, ps, n - 1, items)
            && MoveRows(names, blob, ps, Moves(ps, n, kind))
               == MoveRows(names, blob, ps, Moves(ps, n - 1, kind)) + MoveRows(names, blob, ps, Leave(ps, n - 1, items))
  {
    var items, kept := ps[n - 1].Items(kind), AllKept(ps)[..n];
    assert kept[..n - 1] == AllKept(ps)[..n - 1] && kept[n - 1] == KeptIn(ps, n - 1);
    assert kept[n - 1].Items(kind) == Keep(ps, n - 1, items);
    PlacedLast(names, blob, kept, kind);
    hide PlacedRows, ItemRows, MoveRows, OwnedRows, Keep, Leave, AllKept;
    MoveRowsConcat(names, blob, ps, Moves(ps, n - 1, kind), Leave(ps, n - 1, items));
  }

  lemma {:induction false} SameMoveRows(names: Names, blob: int, ps: seq<Placement>, qs: seq<Placement>, moves: seq<Move>)
    requires SameTags(ps, qs)
    ensures MoveRows(names, blob, ps, moves) == MoveRows(names, blob, qs, moves)
  {
    if moves != [] {
      SameMoveRows(names, blob, ps, qs, moves[..|moves|-1]);
    }
  }

  lemma {:induction false} SameSum<T>(a: seq<T>, b: seq<T>, c: seq<T>, d: seq<T>, x: seq<T>, y: seq<T>, z: seq<T>)
    requires Adds(a, b, x) && Adds(b, c, y) && Adds(a, d, z) && x + y == z
    ensures multiset(c) == multiset(d)
  {
  }

  /** Attribution shows every recorded item once, under its owner's tag. */
  lemma {:induction false} AttributedRows(names: Names, blob: int, ps: seq<Placement>, kind: Kind)
    ensures multiset(PlacedRows(names, blob, Attributed(ps), kind)) == multiset(AllOwned(names, blob, ps, ps, |ps|, kind))
  {
    hide Adds, PlacedRows, MoveRows, Moves, AllOwned, AllKept, Deliver;
    var kept := AllKept(ps);
    var refs, defs := Moves(ps, |ps|, Refs), Moves(ps, |ps|, Defs);
    DeliveredRows(names, blob, ps, refs, defs, kind);
    KeptAndMovedRows(names, blob, ps, |ps|, kind);
    assert kept[..|ps|] == kept by {
      KeptCount(ps);
    }
    var x := if kind == Refs then MoveRows(names, blob, ps, refs) else [];
    var y := if kind == Defs then MoveRows(names, blob, ps, defs) else [];
    assert x + y == MoveRows(names, blob, ps, if kind == Refs then refs else defs);
    var mid, end := Deliver(kept, refs, Refs), Deliver(Deliver(kept, refs, Refs), defs, Defs);
    SameSum(PlacedRows(names, blob, kept, kind), PlacedRows(names, blob, mid, kind), PlacedRows(names, blob, end, kind),
            AllOwned(names, blob, ps, ps, |ps|, kind), x, y, x + y);
  }

  lemma {:induction false} KeptCount(ps: seq<Placement>)
    ensures |AllKept(ps)| == |ps| && SameTags(ps, AllKept(ps))
  {
  }

  /** Both deliveries, references first. */
  lemma {:induction false} DeliveredRows(names: Names, blob: int, ps: seq<Placement>, refs: seq<Move>, defs: seq<Move>, kind: Kind)
    ensures var mid := Deliver(AllKept(ps), refs, Refs);
            && Adds(PlacedRows(names, blob, AllKept(ps), kind), PlacedRows(names, blob, mid, kind),
                    if kind == Refs then MoveRows(names, blob, ps, refs) else [])
            && Adds(PlacedRows(names, blob, mid, kind), PlacedRows(names, blob, Deliver(mid, defs, Defs), kind),
                    if kind == Defs then MoveRows(names, blob, ps, defs) else [])
  {
    hide Adds, PlacedRows, MoveRows, AllKept, Deliver;
    var kept := AllKept(ps);
    var mid := Deliver(kept, refs, Refs);
    KeptCount(ps);
    DeliverTags(kept, refs, Refs);
    DeliverRows(names, blob, kept, refs, Refs, kind);
    DeliverRows(names, blob, mid, defs, Defs, kind);
    SameMoveRows(names, blob, ps, kept, refs);
    SameMoveRows(names, blob, ps, mid, defs);
  }

  // ---------------------------------------------------------------- what the collector holds

  /** Later calls keep the placements a state had, with their places. */
  predicate Grown(g: Gathered, ps: seq<Placement>) {
    |g.ps| <= |ps| && forall i :: 0 <= i < |g.ps| ==> g.ps[i].(refs := [], defs := []) == ps[i].(refs := [], defs := [])
  }

  lemma {:induction false} AfterGrown(g: Gathered, call: Call)
    ensures Grown(g, After(g, call).ps)
  {
  }

  lemma {:induction false} GatherGrown(calls: seq<Call>, n: nat)
    requires n <= |calls|
    ensures Grown(Gather(calls[..n]), Gather(calls).ps)
    decreases |calls|
  {
    if n == |calls| {
      assert calls[..n] == calls;
    } else {
      var front := calls[..|calls|-1];
      assert front[..n] == calls[..n];
      GatherGrown(front, n);
      AfterGrown(Gather(front), calls[|calls|-1]);
    }
  }

  lemma {:induction false} OwnedFrame(names: Names, blob: int, ps: seq<Placement>, held: seq<Placement>, held': seq<Placement>, n: nat, kind: Kind)
    requires n <= |held| <= |ps| && n <= |held'| <= |ps| && forall i :: 0 <= i < n ==> held[i].Items(kind) == held'[i].Items(kind)
    ensures AllOwned(names, blob, ps, held, n, kind) == AllOwned(names, blob, ps, held', n, kind)
  {
    if n > 0 {
      OwnedFrame(names, blob, ps, held, held', n - 1, kind);
    }
  }

  /** A recorded item adds its row. */
  lemma {:induction false} OwnedUpdate(names: Names, blob: int, ps: seq<Placement>, held: seq<Placement>, j: nat, it: Item, n: nat, kind: Kind)
    requires j < n <= |held| <= |ps|
    ensures Adds(AllOwned(names, blob, ps, held, n, kind), AllOwned(names, blob, ps, held[j := Receive(held[j], it, it.Kind())], n, kind),
                 if it.Kind() == kind then [RowOf(names, blob, ps[Owner(ps, j, it)].tag, it)] else [])
    decreases n
  {
    hide Adds, AllOwned, OwnedRows, Owner, RowOf;
    var held' := held[j := Receive(held[j], it, it.Kind())];
    OwnedSplit(names, blob, ps, held, n, kind);
    OwnedSplit(names, blob, ps, held', n, kind);
    if j < n - 1 {
      OwnedUpdate(names, blob, ps, held, j, it, n - 1, kind);
      AddsPart(AllOwned(names, blob, ps, held, n - 1, kind), AllOwned(names, blob, ps, held', n - 1, kind),
               if it.Kind() == kind then [RowOf(names, blob, ps[Owner(ps, j, it)].tag, it)] else [],
               OwnedRows(names, blob, ps, n - 1, held[n - 1].Items(kind)));
    } else {
      OwnedFrame(names, blob, ps, held, held', n - 1, kind);
      OwnedReceived(names, blob, ps, j, held[j], it, kind);
      AddsPart(OwnedRows(names, blob, ps, j, held[j].Items(kind)), OwnedRows(names, blob, ps, j, held'[j].Items(kind)),
               if it.Kind() == kind then [RowOf(names, blob, ps[Owner(ps, j, it)].tag, it)] else [],
               AllOwned(names, blob, ps, held, n - 1, kind));
    }
  }

  lemma {:induction false} OwnedReceived(names: Names, blob: int, ps: seq<Placement>, j: nat, p: Placement, it: Item, kind: Kind)
    requires j < |ps|
    ensures Adds(OwnedRows(names, blob, ps, j, p.Items(kind)), OwnedRows(names, blob, ps, j, Receive(p, it, it.Kind()).Items(kind)),
                 if it.Kind() == kind then [RowOf(names, blob, ps[Owner(ps, j, it)].tag, it)] else [])
  {
    ReceiveItems(p, it, it.Kind());
    OwnedRowsLast(names, blob, ps, j, p.Items(kind), it);
    hide Adds, OwnedRows, Owner, RowOf;
    AddsLast(OwnedRows(names, blob, ps, j, p.Items(kind)), [RowOf(names, blob, ps[Owner(ps, j, it)].tag, it)]);
  }

  lemma {:induction false} OwnedSplit(names: Names, blob: int, ps: seq<Placement>, held: seq<Placement>, n: nat, kind: Kind)
    requires 0 < n <= |held| <= |ps|
    ensures AllOwned(names, blob, ps, held, n, kind)
         == AllOwned(names, blob, ps, held, n - 1, kind) + OwnedRows(names, blob, ps, n - 1, held[n - 1].Items(kind))
  {
  }

  /** The rows of what a state holds. */
  function HeldRows(names: Names, blob: int, ps: seq<Placement>, g: Gathered, kind: Kind): seq<ViewRow>
    requires |g.ps| <= |ps|
  {
    LooseRows(names, blob, g.LooseOf(kind)) + AllOwned(names, blob, ps, g.ps, |g.ps|, kind)
  }

  lemma {:induction false} RegisterShown(names: Names, blob: int, ps: seq<Placement>, g: Gathered, call: Call, kind: Kind)
    requires call.Register? && |g.ps| <= |After(g, call).ps| <= |ps|
    ensures HeldRows(names, blob, ps, After(g, call), kind) == HeldRows(names, blob, ps, g, kind)
  {
    var g' := After(g, call);
    OwnedFrame(names, blob, ps, g.ps, g'.ps, |g.ps|, kind);
    if |g'.ps| > |g.ps| {
      assert g'.ps[|g.ps|].Items(kind) == [];
      assert OwnedRows(names, blob, ps, |g.ps|, []) == [];
    }
    hide LooseRows;
  }

  lemma {:induction false} LooseRowsLast(names: Names, blob: int, items: seq<Loose>, x: Loose)
    ensures LooseRows(names, blob, items + [x]) == LooseRows(names, blob, items) + [RowOf(names, blob, x.tag, x.item)]
  {
    assert (items + [x])[..|items|] == items;
  }

  lemma {:induction false} RecordShown(names: Names, blob: int, ps: seq<Placement>, g: Gathered, tag: int, it: Item, kind: Kind)
    requires |g.ps| <= |ps|
    ensures Adds(HeldRows(names, blob, ps, g, kind), HeldRows(names, blob, ps, After(g, Record(tag, it)), kind),
                 if it.Kind() == kind then [RowOf(names, blob, ShownUnder(g, ps, tag, it), it)] else [])
  {
    var g' := After(g, Record(tag, it));
    var loose, owned := LooseRows(names, blob, g.LooseOf(kind)), AllOwned(names, blob, ps, g.ps, |g.ps|, kind);
    var row := if it.Kind() == kind then [RowOf(names, blob, ShownUnder(g, ps, tag, it), it)] else [];
    if Known(g.ps, tag) {
      OwnedUpdate(names, blob, ps, g.ps, Find(g.ps, tag), it, |g.ps|, kind);
      hide Adds, AllOwned, LooseRows, Owner, RowOf;
      AddsPart(owned, AllOwned(names, blob, ps, g'.ps, |g'.ps|, kind), row, loose);
    } else {
      LooseRowsLast(names, blob, g.LooseOf(kind), Loose(tag, it));
      hide Adds, AllOwned, LooseRows, Owner, RowOf;
      AddsLast(loose, row);
      assert LooseRows(names, blob, g'.LooseOf(kind)) == if it.Kind() == kind then loose + row else loose;
      AddsPart(loose, LooseRows(names, blob, g'.LooseOf(kind)), row, owned);
    }
  }

  /** What the collector holds after `calls`, shown among the placements `ps` of the whole file, are the rows of the calls. */
  ghost predicate Shown(names: Names, blob: int, ps: seq<Placement>, calls: seq<Call>, kind: Kind) {
    |Gather(calls).ps| <= |ps|
    && multiset(HeldRows(names, blob, ps, Gather(calls), kind)) == multiset(CallRows(names, blob, ps, calls, kind))
  }

  lemma {:induction false} SameAdds<T>(a: seq<T>, b: seq<T>, x: seq<T>, c: seq<T>)
    requires Adds(a, b, x) && multiset(a) == multiset(c)
    ensures multiset(b) == multiset(c + x)
  {
  }

  lemma {:induction false} ShownNext(names: Names, blob: int, ps: seq<Placement>, calls: seq<Call>, kind: Kind)
    requires calls != [] && Shown(names, blob, ps, calls[..|calls|-1], kind) && |Gather(calls).ps| <= |ps|
    ensures Shown(names, blob, ps, calls, kind)
  {
    var front, call := calls[..|calls|-1], calls[|calls|-1];
    var g := Gather(front);
    assert Gather(calls) == After(g, call);
    match call
    case Register(_, _, _, _, _, _) =>
      assert CallRows(names, blob, ps, calls, kind) == CallRows(names, blob, ps, front, kind);
      hide CallRows, Gather, HeldRows;
      RegisterShown(names, blob, ps, g, call, kind);
    case Record(tag, it) =>
      var row := if it.Kind() == kind then [RowOf(names, blob, ShownUnder(g, ps, tag, it), it)] else [];
      assert CallRows(names, blob, ps, calls, kind) == CallRows(names, blob, ps, front, kind) + row;
      hide CallRows, Gather, HeldRows, Adds, RowOf, ShownUnder;
      RecordShown(names, blob, ps, g, tag, it, kind);
      SameAdds(HeldRows(names, blob, ps, g, kind), HeldRows(names, blob, ps, After(g, call), kind), row, CallRows(names, blob, ps, front, kind));
  }

  lemma {:induction false} AllShown(names: Names, blob: int, ps: seq<Placement>, calls: seq<Call>, kind: Kind)
    requires forall n :: 0 <= n <= |calls| ==> |Gather(calls[..n]).ps| <= |ps|
    ensures Shown(names, blob, ps, calls, kind)
    decreases |calls|
  {
    assert calls[..|calls|] == calls;
    if calls != [] {
      var front := calls[..|calls|-1];
      forall n | 0 <= n <= |front| ensures |Gather(front[..n]).ps| <= |ps| {
        assert front[..n] == calls[..n];
      }
      AllShown(names, blob, ps, front, kind);
      hide Shown, Gather;
      ShownNext(names, blob, ps, calls, kind);
    }
  }

  // ---------------------------------------------------------------- the main results

  /** One parsed file: its calls, and what `finish()` is given. */
  datatype Parsed = Parsed(blob: int, names: Names, calls: seq<Call>, prior: map<int, Stored>, shared: bool)

  function FileOf(p: Parsed): File {
    var g := Gather(p.calls);
    SymbolCollector.FileOf(p.blob, p.names, g.ps, g.looseRefs, g.looseDefs, p.prior, p.shared)
  }

  /** What `finish()` takes as recorded is what the calls mean. */
  lemma {:induction false} RecordedIsMeant(p: Parsed, kind: Kind)
    ensures Recorded(FileOf(p), kind) == multiset(Meaning(p.names, p.blob, p.calls, kind))
  {
    var g := Gather(p.calls);
    forall n | 0 <= n <= |p.calls| ensures |Gather(p.calls[..n]).ps| <= |g.ps| {
      GatherGrown(p.calls, n);
    }
    AllShown(p.names, p.blob, g.ps, p.calls, kind);
    AttributedRows(p.names, p.blob, g.ps, kind);
  }

  function Files(ps: seq<Parsed>): (r: seq<File>)
    ensures |r| == |ps| && forall i :: 0 <= i < |ps| ==> r[i] == FileOf(ps[i])
  {
    seq(|ps|, i requires 0 <= i < |ps| => FileOf(ps[i]))
  }

  function MeaningOfAll(ps: seq<Parsed>, kind: Kind): multiset<ViewRow> {
    if ps == [] then multiset{}
    else var p := ps[|ps|-1]; MeaningOfAll(ps[..|ps|-1], kind) + multiset(Meaning(p.names, p.blob, p.calls, kind))
  }

  lemma {:induction false} AllMeant(ps: seq<Parsed>, kind: Kind)
    ensures RecordedBy(Files(ps), kind) == MeaningOfAll(ps, kind)
  {
    hide FileOf, Recorded, Meaning;
    if ps != [] {
      AllMeant(ps[..|ps|-1], kind);
      assert Files(ps)[..|ps|-1] == Files(ps[..|ps|-1]);
      RecordedIsMeant(ps[|ps|-1], kind);
    }
  }

  /** After any history of parsed files a view holds one row for every item the parsers recorded: with its resolved target,
      under the tag it was recorded against if that contains it, otherwise under the innermost tag that does. */
  lemma {:induction false} ViewIsWhatWasRecorded(h: Digests, ps: seq<Parsed>, kind: Kind)
    requires AdmissibleRun(h, Files(ps))
    ensures multiset(View(Run(h, Files(ps)), kind)) == MeaningOfAll(ps, kind)
  {
    ViewIsRecorded(h, Files(ps), kind);
    AllMeant(ps, kind);
  }

  /** A file, from the first call of its parser to the operations of `finish()`: executing them adds to the views exactly the
      rows the calls mean. */
  method CollectFile(h: Digests, p: Parsed, ghost db: Db) returns (ops: seq<SymbolCollector.Op>)
    requires Admissible(db, FileOf(p))
    ensures var start := db.(bridge := db.bridge + Bridges(p.blob, FileOf(p).placements));
            forall kind :: multiset(View(SymbolCollector.Exec(p.names, p.blob, start, ops), kind))
                           == multiset(View(db, kind)) + multiset(Meaning(p.names, p.blob, p.calls, kind))
  {
    hide Gather, Admissible, Finished, Meaning, View, Bridges, Attributed, SymbolCollector.Exec;
    FinishMeans(h, p, db);
    var c := Feed(p.calls);
    c.prior := p.prior;
    assert FileOf(p) == SymbolCollector.FileOf(p.blob, p.names, c.placements, c.looseRefs, c.looseDefs, c.prior, p.shared);
    hide FileOf, SymbolCollector.FileOf;
    ops := c.Finish(h, p.names, p.shared, p.blob, db);
  }

  /** A collector that was given the calls. */
  method Feed(calls: seq<Call>) returns (c: SymbolCollector.Collector)
    ensures fresh(c) && c.Valid() && Gathered(c.placements, c.looseRefs, c.looseDefs) == Gather(calls)
  {
    c := new SymbolCollector.Collector();
    for i := 0 to |calls|
      invariant fresh(c) && c.Valid() && Gathered(c.placements, c.looseRefs, c.looseDefs) == Gather(calls[..i])
    {
      assert calls[..i + 1][..i] == calls[..i];
      hide After;
      FeedOne(c, calls[i]);
    }
    assert calls[..|calls|] == calls;
  }

  lemma {:induction false} FinishMeans(h: Digests, p: Parsed, db: Db)
    requires Admissible(db, FileOf(p))
    ensures forall kind :: multiset(View(Finished(h, db, FileOf(p)), kind)) == multiset(View(db, kind)) + multiset(Meaning(p.names, p.blob, p.calls, kind))
  {
    hide View, Finished, Admissible, Meaning, FileOf, Recorded;
    forall kind ensures multiset(View(Finished(h, db, FileOf(p)), kind)) == multiset(View(db, kind)) + multiset(Meaning(p.names, p.blob, p.calls, kind)) {
      FinishAddsRecorded(h, db, FileOf(p), kind);
      RecordedIsMeant(p, kind);
    }
  }

  method FeedOne(c: SymbolCollector.Collector, call: Call)
    requires c.Valid()
    modifies c
    ensures c.Valid()
    ensures Gathered(c.placements, c.looseRefs, c.looseDefs) == After(old(Gathered(c.placements, c.looseRefs, c.looseDefs)), call)
  {
    ghost var g := Gathered(c.placements, c.looseRefs, c.looseDefs);
    match call
    case Register(tag, recycled, lineS, lineE, charS, code) =>
      c.RegisterTag(tag, recycled, lineS, lineE, charS, code);
    case Record(tag, it) =>
      c.Record(tag, it);
      assert c.placements == After(g, call).ps;
  }
}
