/** The tables, items and view of core/SymbolRows.py: what is recorded for a file, how the rows are
    stored, and what the `m_symbol_def` / `m_symbol_ref` views read back. */
module SymbolModel {

  datatype Kind = Refs | Defs

  const MAX_TAG_DEFS := 64

  /** A recorded target: an AST id, or a route to an operation of the same file that gets its id later. */
  datatype Target = Id(id: int) | Route(query: int, route: seq<int>)

  const NO_FILE := Id(0)

  /** How one file's targets are compared while parsing (`fp`) and the row id each one ends up with (`row`). */
  datatype Names = Names(fp: Target -> int, row: Target -> int) {
    /** Equal fingerprints resolve to the same content-addressed row. */
    ghost predicate Sound() {
      forall a, b :: fp(a) == fp(b) ==> row(a) == row(b)
    }
  }

  datatype KeyText =
    | RefText(digest: int, token: string, role: int)
    | DefText(digest: int, name: string, typeId: int)
    | AtText(key: int, relA: int, relB: int)

  /** The digests. Nothing is assumed about them: `key` may collide anywhere. */
  datatype Digests = Digests(digest: string -> int, token: (string, int, int, int) -> string, key: KeyText -> int)

  datatype Item =
    | RefItem(target: Target, fnid: Target, role: int, line: int, charS: int)
    | DefItem(target: Target, name: string, typeId: int, linkage: int, lineS: int, lineE: int)
  {
    /** Both columns the item's key has to resolve (a definition has no file column). */
    function Pair(): (Target, Target) {
      if RefItem? then (target, fnid) else (target, NO_FILE)
    }

    function Kind(): Kind {
      if RefItem? then Refs else Defs
    }
  }

  datatype Placement = Placement(tag: int, recycled: bool, lineS: int, lineE: int, charS: int, code: string,
                                 refs: seq<Item>, defs: seq<Item>)
  {
    predicate Covers(from: int, to: int) {
      lineS <= from && to <= lineE
    }

    predicate Inside(it: Item) {
      match it
      case RefItem(_, _, _, line, _) => Covers(line, line)
      case DefItem(_, _, _, _, ls, le) => Covers(ls, le)
    }

    function Items(kind: Kind): seq<Item> {
      if kind == Refs then refs else defs
    }

    predicate WellKinded() {
      && (forall i :: 0 <= i < |refs| ==> refs[i].RefItem?)
      && (forall i :: 0 <= i < |defs| ==> defs[i].DefItem?)
    }
  }

  /** A row of `m_tag_ref` / `m_tag_def` (without its tag and index). */
  datatype Shared =
    | SharedRef(key: int, role: int, relLine: int, charS: int)
    | SharedDef(key: int, name: string, typeId: int, linkage: int, relS: int, relE: int)

  /** A row of a view, without its id. */
  datatype ViewRow =
    | RefRow(blob: int, tag: int, ast: int, fnid: int, role: int, line: int, charS: int)
    | DefRow(blob: int, tag: int, ast: int, name: string, typeId: int, linkage: int, lineS: int, lineE: int)

  datatype Bridge = Bridge(blob: int, tag: int, lineS: int)

  /** The six tables. `own` and `resolve` are keyed by their whole primary key; the rows of a tag are kept by index. */
  datatype Db = Db(bridge: seq<Bridge>,
                   tagRows: map<(int, Kind), seq<Shared>>,
                   resolve: map<(int, int), (int, int)>,
                   own: set<(int, int, Kind)>,
                   refRows: seq<ViewRow>,
                   defRows: seq<ViewRow>)
  {
    function PerBlob(kind: Kind): seq<ViewRow> {
      if kind == Refs then refRows else defRows
    }

    function TagRows(tag: int, kind: Kind): seq<Shared> {
      if (tag, kind) in tagRows then tagRows[(tag, kind)] else []
    }
  }

  const EMPTY_DB := Db([], map[], map[], {}, [], [])

  // ---------------------------------------------------------------- rows

  /** The row an item means: what a view has to return for it. */
  function RowOf(names: Names, blob: int, tag: int, it: Item): ViewRow {
    match it
    case RefItem(target, fnid, role, line, charS) =>
      RefRow(blob, tag, names.row(target), names.row(fnid), role, line, charS)
    case DefItem(target, name, typeId, linkage, lineS, lineE) =>
      DefRow(blob, tag, names.row(target), name, typeId, linkage, lineS, lineE)
  }

  /** The stored form of an item, relative to its tag. */
  function SharedOf(key: int, it: Item, tagLineS: int): Shared {
    match it
    case RefItem(_, _, role, line, charS) => SharedRef(key, role, line - tagLineS, charS)
    case DefItem(_, name, typeId, linkage, lineS, lineE) =>
      SharedDef(key, name, typeId, linkage, lineS - tagLineS, lineE - tagLineS)
  }

  function Expand(b: Bridge, s: Shared, hit: (int, int)): ViewRow {
    match s
    case SharedRef(_, role, relLine, charS) => RefRow(b.blob, b.tag, hit.0, hit.1, role, b.lineS + relLine, charS)
    case SharedDef(_, name, typeId, linkage, relS, relE) =>
      DefRow(b.blob, b.tag, hit.0, name, typeId, linkage, b.lineS + relS, b.lineS + relE)
  }

  // ---------------------------------------------------------------- views

  function ExpandAll(resolve: map<(int, int), (int, int)>, b: Bridge, rows: seq<Shared>): seq<ViewRow> {
    if rows == [] then []
    else
      ExpandAll(resolve, b, rows[..|rows|-1]) +
      var s := rows[|rows|-1];
      if (b.blob, s.key) in resolve then [Expand(b, s, resolve[(b.blob, s.key)])] else []
  }

  function SharedView(db: Db, b: Bridge, kind: Kind): seq<ViewRow> {
    if (b.blob, b.tag, kind) in db.own then [] else ExpandAll(db.resolve, b, db.TagRows(b.tag, kind))
  }

  function SharedViews(db: Db, bridge: seq<Bridge>, kind: Kind): seq<ViewRow> {
    if bridge == [] then []
    else SharedViews(db, bridge[..|bridge|-1], kind) + SharedView(db, bridge[|bridge|-1], kind)
  }

  /** Per-blob rows first, then the shared rows of every placement that is not its blob's own. */
  function View(db: Db, kind: Kind): seq<ViewRow> {
    db.PerBlob(kind) + SharedViews(db, db.bridge, kind)
  }

  /** `symbol_view_rows`, up to the order in which placements are visited. */
  method SymbolViewRows(db: Db, kind: Kind) returns (out: seq<ViewRow>)
    ensures out == View(db, kind)
  {
    hide ExpandAll;
    var shared := [];
    for i := 0 to |db.bridge|
      invariant shared == SharedViews(db, db.bridge[..i], kind)
    {
      var b := db.bridge[i];
      assert db.bridge[..i + 1][..i] == db.bridge[..i];
      if (b.blob, b.tag, kind) !in db.own {
        var shown := ShowTag(db, b, kind);
        shared := shared + shown;
      }
    }
    assert db.bridge[..|db.bridge|] == db.bridge;
    out := db.PerBlob(kind) + shared;
  }

  method ShowTag(db: Db, b: Bridge, kind: Kind) returns (shown: seq<ViewRow>)
    ensures shown == ExpandAll(db.resolve, b, db.TagRows(b.tag, kind))
  {
    shown := [];
    var rows := db.TagRows(b.tag, kind);
    for j := 0 to |rows|
      invariant shown == ExpandAll(db.resolve, b, rows[..j])
    {
      assert rows[..j + 1][..j] == rows[..j];
      if (b.blob, rows[j].key) in db.resolve {
        shown := shown + [Expand(b, rows[j], db.resolve[(b.blob, rows[j].key)])];
      }
    }
    assert rows[..|rows|] == rows;
  }

  // ---------------------------------------------------------------- laws of the view

  lemma {:induction false} ExpandConcat(resolve: map<(int, int), (int, int)>, b: Bridge, xs: seq<Shared>, ys: seq<Shared>)
    ensures ExpandAll(resolve, b, xs + ys) == ExpandAll(resolve, b, xs) + ExpandAll(resolve, b, ys)
  {
    hide Expand;
    if ys == [] {
      assert xs + ys == xs;
    } else {
      var front := ys[..|ys|-1];
      assert (xs + ys)[..|xs + ys|-1] == xs + front;
      ExpandConcat(resolve, b, xs, front);
    }
  }

  lemma {:induction false} ExpandMiddle(resolve: map<(int, int), (int, int)>, b: Bridge, left: seq<Shared>, x: Shared, right: seq<Shared>)
    ensures multiset(ExpandAll(resolve, b, left + [x] + right))
         == multiset(ExpandAll(resolve, b, left + right)) + multiset(ExpandAll(resolve, b, [x]))
  {
    ExpandConcat(resolve, b, left + [x], right);
    ExpandConcat(resolve, b, left, [x]);
    ExpandConcat(resolve, b, left, right);
  }

  lemma {:induction false} SplitAtLast<T>(xs: seq<T>, ys: seq<T>) returns (left: seq<T>, right: seq<T>)
    requires xs != [] && multiset(xs) == multiset(ys)
    ensures ys == left + [xs[|xs|-1]] + right
    ensures multiset(xs[..|xs|-1]) == multiset(left + right)
  {
    var x := xs[|xs|-1];
    assert xs == xs[..|xs|-1] + [x];
    assert x in multiset(ys);
    var i :| 0 <= i < |ys| && ys[i] == x;
    left, right := ys[..i], ys[i+1..];
    assert ys == left + [x] + right;
    assert multiset(xs[..|xs|-1]) == multiset(xs) - multiset{x};
  }

  /** What a placement shows depends only on which rows its tag has, not on their indexes. */
  lemma {:induction false} ExpandPermuted(resolve: map<(int, int), (int, int)>, b: Bridge, xs: seq<Shared>, ys: seq<Shared>)
    requires multiset(xs) == multiset(ys)
    ensures multiset(ExpandAll(resolve, b, xs)) == multiset(ExpandAll(resolve, b, ys))
    decreases |xs|
  {
    if xs == [] {
      assert |multiset(ys)| == 0;
    } else {
      var front, x := xs[..|xs|-1], xs[|xs|-1];
      var left, right := SplitAtLast(xs, ys);
      ExpandPermuted(resolve, b, front, left + right);
      ExpandMiddle(resolve, b, left, x, right);
      ExpandMiddle(resolve, b, front, x, []);
      assert front + [] == front && front + [x] + [] == xs;
    }
  }

  lemma {:induction false} SharedViewsConcat(db: Db, xs: seq<Bridge>, ys: seq<Bridge>, kind: Kind)
    ensures SharedViews(db, xs + ys, kind) == SharedViews(db, xs, kind) + SharedViews(db, ys, kind)
  {
    hide SharedView;
    if ys == [] {
      assert xs + ys == xs;
    } else {
      var front := ys[..|ys|-1];
      assert (xs + ys)[..|xs + ys|-1] == xs + front;
      SharedViewsConcat(db, xs, front, kind);
    }
  }

  /** What `db'` may differ in without changing what the placements in `bridge` show. */
  ghost predicate AgreeOn(db: Db, db': Db, b: Bridge, kind: Kind) {
    && ((b.blob, b.tag, kind) in db.own <==> (b.blob, b.tag, kind) in db'.own)
    && db.TagRows(b.tag, kind) == db'.TagRows(b.tag, kind)
    && (forall key :: (b.blob, key) in db.resolve <==> (b.blob, key) in db'.resolve)
    && (forall key :: (b.blob, key) in db.resolve ==> db.resolve[(b.blob, key)] == db'.resolve[(b.blob, key)])
  }

  lemma {:induction false} ExpandFrame(resolve: map<(int, int), (int, int)>, resolve': map<(int, int), (int, int)>, b: Bridge,
                                       rows: seq<Shared>)
    requires forall key :: (b.blob, key) in resolve <==> (b.blob, key) in resolve'
    requires forall key :: (b.blob, key) in resolve ==> resolve[(b.blob, key)] == resolve'[(b.blob, key)]
    ensures ExpandAll(resolve, b, rows) == ExpandAll(resolve', b, rows)
  {
    if rows != [] {
      ExpandFrame(resolve, resolve', b, rows[..|rows|-1]);
    }
  }

  lemma {:induction false} SharedViewsFrame(db: Db, db': Db, bridge: seq<Bridge>, kind: Kind)
    requires forall i :: 0 <= i < |bridge| ==> AgreeOn(db, db', bridge[i], kind)
    ensures SharedViews(db, bridge, kind) == SharedViews(db', bridge, kind)
  {
    if bridge != [] {
      var b := bridge[|bridge|-1];
      assert AgreeOn(db, db', b, kind);
      ExpandFrame(db.resolve, db'.resolve, b, db.TagRows(b.tag, kind));
      SharedViewsFrame(db, db', bridge[..|bridge|-1], kind);
    }
  }

  // ---------------------------------------------------------------- synthetic definition ids

  /** The id a view gives a definition stored once per tag: a flag, then blob, tag and index. */
  function SyntheticDefId(blob: int, tag: int, idx: int): int {
    0x4000_0000_0000_0000 + blob * 0x20_0000_0000 + tag * 0x40 + idx
  }

  /** Two shared definitions never get the same id, as long as ids fit their fields. */
  lemma {:induction false} SyntheticDefIdInjective(b1: int, t1: int, i1: int, b2: int, t2: int, i2: int)
    requires 0 <= i1 < MAX_TAG_DEFS && 0 <= i2 < MAX_TAG_DEFS
    requires 0 <= t1 < 0x8000_0000 && 0 <= t2 < 0x8000_0000
    requires SyntheticDefId(b1, t1, i1) == SyntheticDefId(b2, t2, i2)
    ensures (b1, t1, i1) == (b2, t2, i2)
  {
    var low1, low2 := t1 * 0x40 + i1, t2 * 0x40 + i2;
    assert 0 <= low1 < 0x20_0000_0000 && 0 <= low2 < 0x20_0000_0000;
    assert (b1 - b2) * 0x20_0000_0000 == low2 - low1;
    assert b1 == b2;
  }
}
