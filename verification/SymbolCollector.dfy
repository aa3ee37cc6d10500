/** The per-file collector of core/SymbolRows.py: recording, attribution and the operations `finish()` emits, each
    method tied to the functions the view theorem is about. */
module SymbolCollector {
  import opened Basics
  import opened SymbolModel
  import opened SymbolFinish
  import Attr = SymbolAttribution

  /** An operation stored in the ChangeSet; its targets resolve when it executes. */
  datatype Op =
    | TagOp(tag: int, kind: Kind, idx: nat, row: Shared)
    | OwnOp(tag: int, kind: Kind)
    | ResolveOp(key: int, target: Target, fnid: Target)
    | BlobOp(kind: Kind, loose: Loose)

  /** Executing one operation for a blob. A tag row is written at its index; an index in use is skipped. */
  function Apply(names: Names, blob: int, db: Db, op: Op): Db {
    match op
    case TagOp(tag, kind, idx, row) =>
      if idx == |db.TagRows(tag, kind)| then db.(tagRows := db.tagRows[(tag, kind) := db.TagRows(tag, kind) + [row]]) else db
    case OwnOp(tag, kind) => db.(own := db.own + {(blob, tag, kind)})
    case ResolveOp(key, target, fnid) => db.(resolve := db.resolve[(blob, key) := (names.row(target), names.row(fnid))])
    case BlobOp(kind, loose) =>
      var row := RowOf(names, blob, loose.tag, loose.item);
      if kind == Refs then db.(refRows := db.refRows + [row]) else db.(defRows := db.defRows + [row])
  }

  function Exec(names: Names, blob: int, db: Db, ops: seq<Op>): Db {
    if ops == [] then db else Apply(names, blob, Exec(names, blob, db, ops[..|ops|-1]), ops[|ops|-1])
  }

  lemma {:induction false} ExecConcat(names: Names, blob: int, db: Db, xs: seq<Op>, ys: seq<Op>)
    ensures Exec(names, blob, db, xs + ys) == Exec(names, blob, Exec(names, blob, db, xs), ys)
  {
    if ys == [] {
      assert xs + ys == xs;
    } else {
      assert (xs + ys)[..|xs + ys|-1] == xs + ys[..|ys|-1];
      ExecConcat(names, blob, db, xs, ys[..|ys|-1]);
    }
  }

  lemma {:induction false} ExecAppend(names: Names, blob: int, db: Db, xs: seq<Op>, op: Op)
    ensures Exec(names, blob, db, xs + [op]) == Apply(names, blob, Exec(names, blob, db, xs), op)
  {
    assert (xs + [op])[..|xs|] == xs;
  }

  // ---------------------------------------------------------------- step 1: keys

  method PlanItems(h: Digests, shared: bool, p: Placement, items: seq<Item>) returns (keyed: seq<Keyed>, outside: seq<Loose>)
    ensures keyed == KeyedItems(h, shared, p, items)
    ensures outside == OutsideItems(shared, p, items)
  {
    keyed, outside := [], [];
    for i := 0 to |items|
      invariant keyed == KeyedItems(h, shared, p, items[..i])
      invariant outside == OutsideItems(shared, p, items[..i])
    {
      assert items[..i + 1][..i] == items[..i];
      if shared && p.Inside(items[i]) {
        keyed := keyed + [Keyed(KeyOf(h, p, items[i]), items[i])];
      } else {
        outside := outside + [Loose(p.tag, items[i])];
      }
    }
    assert items[..|items|] == items;
  }

  method LooseItems(tag: int, keyed: seq<Keyed>) returns (loose: seq<Loose>)
    ensures loose == LooseKeyed(tag, keyed)
  {
    loose := [];
    for i := 0 to |keyed|
      invariant loose == LooseKeyed(tag, keyed[..i])
    {
      assert keyed[..i + 1][..i] == keyed[..i];
      loose := loose + [Loose(tag, keyed[i].item)];
    }
    assert keyed[..|keyed|] == keyed;
  }

  method PlanAll(h: Digests, shared: bool, ps: seq<Placement>) returns (plans: seq<Planned>, refs: seq<Loose>, defs: seq<Loose>)
    ensures plans == Plans(h, shared, ps)
    ensures refs == SpilledAll(h, shared, ps, Refs) && defs == SpilledAll(h, shared, ps, Defs)
  {
    hide KeyedItems, OutsideItems, LooseKeyed;
    plans, refs, defs := [], [], [];
    for i := 0 to |ps|
      invariant plans == Plans(h, shared, ps[..i])
      invariant refs == SpilledAll(h, shared, ps[..i], Refs) && defs == SpilledAll(h, shared, ps[..i], Defs)
    {
      assert ps[..i + 1][..i] == ps[..i];
      var p := ps[i];
      var keyedRefs, outsideRefs := PlanItems(h, shared, p, p.refs);
      var keyedDefs, outsideDefs := PlanItems(h, shared, p, p.defs);
      if |keyedDefs| > MAX_TAG_DEFS {
        var over := LooseItems(p.tag, keyedDefs);
        outsideDefs := outsideDefs + over;
        keyedDefs := [];
      }
      assert Spilled(h, shared, p, Refs) == outsideRefs && Spilled(h, shared, p, Defs) == outsideDefs;
      plans := plans + [Planned(p, keyedRefs, keyedDefs)];
      refs := refs + outsideRefs;
      defs := defs + outsideDefs;
    }
    assert ps[..|ps|] == ps;
  }

  method AllEntries(plans: seq<Planned>) returns (entries: seq<Keyed>)
    ensures entries == Entries(plans)
  {
    entries := [];
    for i := 0 to |plans|
      invariant entries == Entries(plans[..i])
    {
      assert plans[..i + 1][..i] == plans[..i];
      entries := entries + plans[i].refs + plans[i].defs;
    }
    assert plans[..|plans|] == plans;
  }

  // ---------------------------------------------------------------- step 2: ambiguous keys

  ghost predicate UsedFor(entries: seq<Keyed>, n: nat, key: int, pair: (Target, Target))
    requires n <= |entries|
  {
    exists i :: 0 <= i < n && entries[i].key == key && entries[i].item.Pair() == pair
  }

  lemma {:induction false} UsedStep(entries: seq<Keyed>, i: nat, key: int, pair: (Target, Target))
    requires i < |entries|
    ensures UsedFor(entries, i + 1, key, pair) <==> UsedFor(entries, i, key, pair) || (key == entries[i].key && pair == entries[i].item.Pair())
  {
    if UsedFor(entries, i + 1, key, pair) {
      var j :| 0 <= j < i + 1 && entries[j].key == key && entries[j].item.Pair() == pair;
      assert j < i ==> UsedFor(entries, i, key, pair);
    }
  }

  function TargetsAt(raw: map<int, set<(Target, Target)>>, key: int): set<(Target, Target)> {
    if key in raw then raw[key] else {}
  }

  /** `raw` maps every key of the first `n` entries to the targets it is used for. */
  ghost predicate RawTargets(entries: seq<Keyed>, n: nat, raw: map<int, set<(Target, Target)>>)
    requires n <= |entries|
  {
    forall key, pair :: pair in TargetsAt(raw, key) <==> UsedFor(entries, n, key, pair)
  }

  lemma {:induction false} RawStep(entries: seq<Keyed>, i: nat, raw: map<int, set<(Target, Target)>>)
    requires i < |entries| && RawTargets(entries, i, raw)
    ensures RawTargets(entries, i + 1, raw[entries[i].key := TargetsAt(raw, entries[i].key) + {entries[i].item.Pair()}])
  {
    var k := entries[i];
    var after := raw[k.key := TargetsAt(raw, k.key) + {k.item.Pair()}];
    forall key, pair ensures pair in TargetsAt(after, key) <==> UsedFor(entries, i + 1, key, pair) {
      UsedStep(entries, i, key, pair);
      assert pair in TargetsAt(raw, key) <==> UsedFor(entries, i, key, pair);
    }
  }

  /** The keys whose targets have more than one fingerprint; the fingerprint of a key's only target is not computed. */
  method ClashesOf(names: Names, plans: seq<Planned>) returns (clashing: set<int>)
    ensures clashing == ClashingKeys(names, Entries(plans))
  {
    var entries := AllEntries(plans);
    var raw: map<int, set<(Target, Target)>> := map[];
    for i := 0 to |entries|
      invariant RawTargets(entries, i, raw)
    {
      var k := entries[i];
      RawStep(entries, i, raw);
      raw := raw[k.key := TargetsAt(raw, k.key) + {k.item.Pair()}];
    }
    clashing := set key | key in raw && |raw[key]| > 1 && |Prints(names, raw[key])| > 1;
    forall key ensures key in clashing <==> key in ClashingKeys(names, entries) {
      ClashingKey(names, entries, raw, key);
    }
  }

  function Prints(names: Names, pairs: set<(Target, Target)>): set<(int, int)> {
    set pair | pair in pairs :: (names.fp(pair.0), names.fp(pair.1))
  }

  lemma {:induction false} TwoElements<T>(s: set<T>, a: T, b: T)
    requires a in s && b in s && a != b
    ensures |s| > 1
  {
    assert {a, b} <= s;
    SubsetSize({a, b}, s);
  }

  lemma {:induction false} SubsetSize<T>(a: set<T>, b: set<T>)
    requires a <= b
    ensures |a| <= |b|
  {
    assert b == a + (b - a);
  }

  lemma {:induction false} OneElement<T>(s: set<T>)
    requires |s| > 1
    ensures exists a, b :: a in s && b in s && a != b
  {
    var a :| a in s;
    assert |s - {a}| > 0;
    var b :| b in s - {a};
  }

  lemma {:induction false} ClashingKey(names: Names, entries: seq<Keyed>, raw: map<int, set<(Target, Target)>>, key: int)
    requires RawTargets(entries, |entries|, raw)
    ensures (key in raw && |raw[key]| > 1 && |Prints(names, raw[key])| > 1) <==> key in ClashingKeys(names, entries)
  {
    var pairs := TargetsAt(raw, key);
    if key in ClashingKeys(names, entries) {
      var i, j :| 0 <= i < |entries| && 0 <= j < |entries| && entries[i].key == key == entries[j].key
                  && Print(names, entries[i].item) != Print(names, entries[j].item);
      var a, b := entries[i].item.Pair(), entries[j].item.Pair();
      assert UsedFor(entries, |entries|, key, a) && UsedFor(entries, |entries|, key, b);
      TwoElements(pairs, a, b);
      TwoElements(Prints(names, pairs), (names.fp(a.0), names.fp(a.1)), (names.fp(b.0), names.fp(b.1)));
    }
    if |Prints(names, pairs)| > 1 {
      OneElement(Prints(names, pairs));
      var a, b :| a in pairs && b in pairs && (names.fp(a.0), names.fp(a.1)) != (names.fp(b.0), names.fp(b.1));
      assert UsedFor(entries, |entries|, key, a) && UsedFor(entries, |entries|, key, b);
      var i :| 0 <= i < |entries| && entries[i].key == key && entries[i].item.Pair() == a;
      var j :| 0 <= j < |entries| && entries[j].key == key && entries[j].item.Pair() == b;
      assert Clashes(names, entries, key);
    }
  }

  method Refine(h: Digests, ambiguous: set<int>, p: Placement, items: seq<Keyed>) returns (refined: seq<Keyed>)
    ensures refined == RefineItems(h, ambiguous, p, items)
  {
    refined := [];
    for i := 0 to |items|
      invariant refined == RefineItems(h, ambiguous, p, items[..i])
    {
      assert items[..i + 1][..i] == items[..i];
      var k := items[i];
      refined := refined + [if k.key in ambiguous then Keyed(RefinedKey(h, p, k), k.item) else k];
    }
    assert items[..|items|] == items;
  }

  method RefineAll(h: Digests, ambiguous: set<int>, plans: seq<Planned>) returns (refined: seq<Planned>)
    ensures refined == RefinePlans(h, ambiguous, plans)
  {
    refined := [];
    for i := 0 to |plans|
      invariant refined == RefinePlans(h, ambiguous, plans[..i])
    {
      assert plans[..i + 1][..i] == plans[..i];
      var refs := Refine(h, ambiguous, plans[i].p, plans[i].refs);
      var defs := Refine(h, ambiguous, plans[i].p, plans[i].defs);
      refined := refined + [Planned(plans[i].p, refs, defs)];
    }
    assert plans[..|plans|] == plans;
  }

  method TargetsOf(plans: seq<Planned>) returns (first: map<int, (Target, Target)>)
    ensures first == FirstTargets(Entries(plans))
  {
    var entries := AllEntries(plans);
    first := map[];
    for i := 0 to |entries|
      invariant first == FirstTargets(entries[..i])
    {
      assert entries[..i + 1][..i] == entries[..i];
      if entries[i].key !in first {
        first := first[entries[i].key := entries[i].item.Pair()];
      }
    }
    assert entries[..|entries|] == entries;
  }

  // ---------------------------------------------------------------- step 3: emission

  method SharedItems(items: seq<Keyed>, lineS: int) returns (rows: seq<Shared>)
    ensures rows == SharedAll(items, lineS)
  {
    rows := [];
    for i := 0 to |items|
      invariant rows == SharedAll(items[..i], lineS)
    {
      assert items[..i + 1][..i] == items[..i];
      rows := rows + [SharedOf(items[i].key, items[i].item, lineS)];
    }
    assert items[..|items|] == items;
  }

  /** The rows of a new tag, numbered from 0. */
  method TagOps(ghost names: Names, ghost blob: int, ghost db: Db, tag: int, kind: Kind, rows: seq<Shared>) returns (ops: seq<Op>)
    requires db.TagRows(tag, kind) == []
    ensures |ops| == |rows| && forall i :: 0 <= i < |rows| ==> ops[i] == TagOp(tag, kind, i, rows[i])
    ensures Exec(names, blob, db, ops) == if rows == [] then db else db.(tagRows := db.tagRows[(tag, kind) := rows])
  {
    ops := [];
    for i := 0 to |rows|
      invariant |ops| == i && forall k :: 0 <= k < i ==> ops[k] == TagOp(tag, kind, k, rows[k])
      invariant Exec(names, blob, db, ops) == if i == 0 then db else db.(tagRows := db.tagRows[(tag, kind) := rows[..i]])
    {
      ExecAppend(names, blob, db, ops, TagOp(tag, kind, i, rows[i]));
      assert rows[..i] + [rows[i]] == rows[..i + 1];
      ops := ops + [TagOp(tag, kind, i, rows[i])];
    }
    assert rows[..|rows|] == rows;
  }

  function Pairs(names: Names, blob: int, first: map<int, (Target, Target)>, keys: set<int>): map<(int, int), (int, int)> {
    map k | k in keys && k in first :: (blob, k) := (names.row(first[k].0), names.row(first[k].1))
  }

  /** Adding a key's row to the rows of other keys; a key that is already there gets the row it has. */
  lemma {:induction false} PairsStep(names: Names, blob: int, base: map<(int, int), (int, int)>, first: map<int, (Target, Target)>, keys: set<int>, key: int)
    requires key in first
    ensures var row := (names.row(first[key].0), names.row(first[key].1));
            var done, next := base + Pairs(names, blob, first, keys), base + Pairs(names, blob, first, keys + {key});
            && next == done[(blob, key) := row]
            && (key in keys || ((blob, key) in base && base[(blob, key)] == row) ==> next == done)
  {
  }

  ghost predicate AlreadyMapped(names: Names, blob: int, resolve: map<(int, int), (int, int)>, first: map<int, (Target, Target)>, mapped: set<int>) {
    forall k :: k in mapped && k in first ==>
      (blob, k) in resolve && resolve[(blob, k)] == (names.row(first[k].0), names.row(first[k].1))
  }

  /** One resolution row per key not yet mapped. */
  method ResolveOps(ghost names: Names, ghost blob: int, ghost db: Db, first: map<int, (Target, Target)>, mapped: set<int>,
                    items: seq<Keyed>)
    returns (ops: seq<Op>, mapped': set<int>)
    requires forall i :: 0 <= i < |items| ==> items[i].key in first
    requires AlreadyMapped(names, blob, db.resolve, first, mapped)
    ensures mapped' == mapped + KeyedKeys(items)
    ensures forall k :: 0 <= k < |ops| ==> ops[k].ResolveOp?
    ensures Exec(names, blob, db, ops) == db.(resolve := db.resolve + Pairs(names, blob, first, KeyedKeys(items)))
  {
    hide Pairs, Exec;
    ops, mapped' := [], mapped;
    NoPairs(names, blob, db, first);
    for i := 0 to |items|
      invariant mapped' == mapped + KeyedKeys(items[..i])
      invariant forall k :: 0 <= k < |ops| ==> ops[k].ResolveOp?
      invariant Exec(names, blob, db, ops) == db.(resolve := db.resolve + Pairs(names, blob, first, KeyedKeys(items[..i])))
    {
      var key := items[i].key;
      KeysStep(items, i);
      PairsStep(names, blob, db.resolve, first, KeyedKeys(items[..i]), key);
      if key !in mapped' {
        var op := ResolveOp(key, first[key].0, first[key].1);
        ExecAppend(names, blob, db, ops, op);
        mapped' := mapped' + {key};
        ops := ops + [op];
      }
    }
    assert items[..|items|] == items;
  }

  lemma {:induction false} NoPairs(names: Names, blob: int, db: Db, first: map<int, (Target, Target)>)
    ensures Exec(names, blob, db, []) == db.(resolve := db.resolve + Pairs(names, blob, first, KeyedKeys([])))
  {
    assert db.resolve + Pairs(names, blob, first, KeyedKeys([])) == db.resolve;
  }

  lemma {:induction false} KeysStep(items: seq<Keyed>, i: nat)
    requires i < |items|
    ensures KeyedKeys(items[..i + 1]) == KeyedKeys(items[..i]) + {items[i].key}
  {
    var more := items[..i + 1];
    assert more == items[..i] + [items[i]];
    assert more[i].key in KeyedKeys(more);
    forall key | key in KeyedKeys(items[..i]) ensures key in KeyedKeys(more) {
      var j :| 0 <= j < i && items[..i][j].key == key;
      assert more[j].key == key;
    }
  }

  /** What one kind of one placement does to the database. */
  function Emitted(names: Names, blob: int, db: Db, prior: map<int, Stored>, conflicts: set<int>, first: map<int, (Target, Target)>,
                   pl: Planned, kind: Kind): Db
  {
    db.(tagRows := TagRowsWith(db.tagRows, pl, kind),
        own := db.own + OwnMark(blob, prior, conflicts, pl, kind),
        resolve := db.resolve + Pairs(names, blob, first, MappedBy(prior, conflicts, pl, kind)))
  }

  method NewTagOps(ghost names: Names, ghost blob: int, ghost db: Db, pl: Planned, kind: Kind) returns (ops: seq<Op>)
    requires !pl.p.recycled && db.TagRows(pl.p.tag, kind) == []
    ensures Exec(names, blob, db, ops) == db.(tagRows := TagRowsWith(db.tagRows, pl, kind))
  {
    var rows := SharedItems(pl.Items(kind), pl.p.lineS);
    ops := TagOps(names, blob, db, pl.p.tag, kind, rows);
    SharedAllLength(pl.Items(kind), pl.p.lineS);
    assert [] + rows == rows;
  }

  lemma {:induction false} SharedAllLength(items: seq<Keyed>, lineS: int)
    ensures |SharedAll(items, lineS)| == |items|
  {
    if items != [] {
      SharedAllLength(items[..|items|-1], lineS);
    }
  }

  /** No key of the items has two meanings, and a reused tag's stored rows are the items' rows, in any order. */
  ghost predicate Shareable(prior: map<int, Stored>, conflicts: set<int>, pl: Planned, kind: Kind) {
    var items := pl.Items(kind);
    && (forall k :: 0 <= k < |items| ==> items[k].key !in conflicts)
    && (pl.p.recycled ==>
          if pl.p.tag in prior
          then multiset(seq(|items|, k requires 0 <= k < |items| => SharedOf(items[k].key, items[k].item, pl.p.lineS))) == prior[pl.p.tag].Of(kind)
          else items == [])
  }

  /** Whether this blob keeps the items itself, and whether shared rows would show: the branches of `finish()`. */
  method DecideOwn(prior: map<int, Stored>, conflicts: set<int>, shared: bool, pl: Planned, kind: Kind) returns (keeps: bool, hasShared: bool)
    requires !shared ==> pl.Items(kind) == []
    ensures keeps == KeepsOwn(prior, conflicts, pl, kind) && hasShared == HasSharedRows(prior, pl, kind)
    ensures keeps <==> !Shareable(prior, conflicts, pl, kind)
    ensures hasShared <==> if pl.p.recycled then pl.p.tag in prior && prior[pl.p.tag].Of(kind) != multiset{} else pl.Items(kind) != []
  {
    var items := pl.Items(kind);
    SharedAllRows(items, pl.p.lineS);
    var rows := SharedItems(items, pl.p.lineS);
    SharedAllLength(items, pl.p.lineS);
    var own := false;
    if !shared {
      hasShared := pl.p.recycled && pl.p.tag in prior && prior[pl.p.tag].Of(kind) != multiset{};
      return hasShared, hasShared;
    }
    if !pl.p.recycled {
      hasShared := items != [];
    } else if pl.p.tag in prior {
      hasShared := prior[pl.p.tag].Of(kind) != multiset{};
      own := multiset(rows) != prior[pl.p.tag].Of(kind);
      if items == [] && !hasShared {
        own := false;
      }
    } else {
      hasShared := false;
      own := items != [];
    }
    keeps := own || exists i :: 0 <= i < |items| && items[i].key in conflicts;
  }

  /** The operations of one kind of one placement: none but resolutions if a reused tag's items are shared. */
  method EmitKind(ghost names: Names, ghost blob: int, ghost db: Db, prior: map<int, Stored>, conflicts: set<int>,
                  first: map<int, (Target, Target)>, shared: bool, mapped: set<int>, pl: Planned, kind: Kind)
    returns (ops: seq<Op>, mapped': set<int>, kept: seq<Loose>)
    requires !pl.p.recycled ==> db.TagRows(pl.p.tag, kind) == []
    requires forall i :: 0 <= i < |pl.Items(kind)| ==> pl.Items(kind)[i].key in first
    requires AlreadyMapped(names, blob, db.resolve, first, mapped)
    requires !shared ==> pl.Items(kind) == []
    ensures kept == KeptBy(prior, conflicts, pl, kind)
    ensures pl.p.recycled && Shareable(prior, conflicts, pl, kind) ==> kept == [] && forall k :: 0 <= k < |ops| ==> ops[k].ResolveOp?
    ensures mapped' == mapped + MappedBy(prior, conflicts, pl, kind)
    ensures Exec(names, blob, db, ops) == Emitted(names, blob, db, prior, conflicts, first, pl, kind)
  {
    hide Exec, KeepsOwn, HasSharedRows, TagRowsWith, Pairs, KeyedKeys, LooseKeyed, Shareable;
    var keeps, hasShared := DecideOwn(prior, conflicts, shared, pl, kind);
    ops := [];
    ExecNone(names, blob, db);
    if !pl.p.recycled {
      ops := NewTagOps(names, blob, db, pl, kind);
    } else {
      RecycledRows(db.tagRows, pl, kind);
    }
    ghost var db1 := db.(tagRows := TagRowsWith(db.tagRows, pl, kind));
    assert Exec(names, blob, db, ops) == db1;
    if keeps {
      if hasShared {
        ExecAppend(names, blob, db, ops, OwnOp(pl.p.tag, kind));
        ops := ops + [OwnOp(pl.p.tag, kind)];
      }
      kept := LooseItems(pl.p.tag, pl.Items(kind));
      mapped' := mapped;
      NoKeys(names, blob, db.resolve, first);
    } else {
      kept := [];
      var more;
      more, mapped' := ResolveOps(names, blob, db1, first, mapped, pl.Items(kind));
      ExecConcat(names, blob, db, ops, more);
      ops := ops + more;
    }
  }

  lemma {:induction false} ExecNone(names: Names, blob: int, db: Db)
    ensures Exec(names, blob, db, []) == db
  {
  }

  lemma {:induction false} RecycledRows(rows: map<(int, Kind), seq<Shared>>, pl: Planned, kind: Kind)
    requires pl.p.recycled
    ensures TagRowsWith(rows, pl, kind) == rows
  {
  }

  lemma {:induction false} NoKeys(names: Names, blob: int, resolve: map<(int, int), (int, int)>, first: map<int, (Target, Target)>)
    ensures resolve + Pairs(names, blob, first, {}) == resolve
  {
  }

  function AddRows(db: Db, kind: Kind, rows: seq<ViewRow>): Db {
    if kind == Refs then db.(refRows := db.refRows + rows) else db.(defRows := db.defRows + rows)
  }

  /** The per-blob rows, in order. */
  method BlobOps(ghost names: Names, ghost blob: int, ghost db: Db, kind: Kind, items: seq<Loose>) returns (ops: seq<Op>)
    ensures Exec(names, blob, db, ops) == AddRows(db, kind, LooseRows(names, blob, items))
  {
    hide Exec, LooseRows, AddRows;
    ops := [];
    NoBlobRows(names, blob, db, kind);
    for i := 0 to |items|
      invariant Exec(names, blob, db, ops) == AddRows(db, kind, LooseRows(names, blob, items[..i]))
    {
      ExecAppend(names, blob, db, ops, BlobOp(kind, items[i]));
      BlobRowStep(names, blob, db, kind, items[..i], items[i]);
      assert items[..i + 1] == items[..i] + [items[i]];
      ops := ops + [BlobOp(kind, items[i])];
    }
    assert items[..|items|] == items;
  }

  lemma {:induction false} NoBlobRows(names: Names, blob: int, db: Db, kind: Kind)
    ensures Exec(names, blob, db, []) == AddRows(db, kind, LooseRows(names, blob, []))
  {
    assert db.refRows + [] == db.refRows && db.defRows + [] == db.defRows;
  }

  lemma {:induction false} BlobRowStep(names: Names, blob: int, db: Db, kind: Kind, items: seq<Loose>, it: Loose)
    ensures Apply(names, blob, AddRows(db, kind, LooseRows(names, blob, items)), BlobOp(kind, it))
         == AddRows(db, kind, LooseRows(names, blob, items + [it]))
  {
    LooseAppend(names, blob, items, it);
    var rows, row := LooseRows(names, blob, items), RowOf(names, blob, it.tag, it.item);
    assert db.refRows + (rows + [row]) == (db.refRows + rows) + [row];
    assert db.defRows + (rows + [row]) == (db.defRows + rows) + [row];
  }

  /** The database after the shared part of the first `n` plans was written. */
  function EmittedAll(names: Names, blob: int, db: Db, prior: map<int, Stored>, conflicts: set<int>, first: map<int, (Target, Target)>,
                      plans: seq<Planned>): Db
  {
    db.(tagRows := TagRowsAfter(db.tagRows, plans),
        own := db.own + OwnMarks(blob, prior, conflicts, plans),
        resolve := db.resolve + Pairs(names, blob, first, MappedKeys(prior, conflicts, plans)))
  }

  lemma {:induction false} PairsUnion(names: Names, blob: int, resolve: map<(int, int), (int, int)>, first: map<int, (Target, Target)>,
                                      xs: set<int>, ys: set<int>)
    ensures (resolve + Pairs(names, blob, first, xs)) + Pairs(names, blob, first, ys) == resolve + Pairs(names, blob, first, xs + ys)
  {
  }

  /** Writing both kinds of the next plan extends the written prefix by one. */
  lemma {:induction false} EmittedStep(names: Names, blob: int, db: Db, prior: map<int, Stored>, conflicts: set<int>,
                                       first: map<int, (Target, Target)>, plans: seq<Planned>, i: nat)
    requires i < |plans|
    ensures Emitted(names, blob, Emitted(names, blob, EmittedAll(names, blob, db, prior, conflicts, first, plans[..i]),
                                         prior, conflicts, first, plans[i], Refs), prior, conflicts, first, plans[i], Defs)
         == EmittedAll(names, blob, db, prior, conflicts, first, plans[..i + 1])
  {
    hide Pairs, TagRowsWith, OwnMark, MappedBy;
    assert plans[..i + 1][..i] == plans[..i];
    var keys := MappedKeys(prior, conflicts, plans[..i]);
    var refs, defs := MappedBy(prior, conflicts, plans[i], Refs), MappedBy(prior, conflicts, plans[i], Defs);
    PairsUnion(names, blob, db.resolve, first, keys, refs);
    PairsUnion(names, blob, db.resolve, first, keys + refs, defs);
    var marks := OwnMarks(blob, prior, conflicts, plans[..i]);
    assert (db.own + marks) + OwnMark(blob, prior, conflicts, plans[i], Refs) + OwnMark(blob, prior, conflicts, plans[i], Defs)
        == db.own + OwnMarks(blob, prior, conflicts, plans[..i + 1]);
  }

  lemma {:induction false} MappedAre(names: Names, blob: int, db: Db, first: map<int, (Target, Target)>, keys: set<int>)
    ensures AlreadyMapped(names, blob, db.resolve + Pairs(names, blob, first, keys), first, keys)
  {
  }

  /** What the emission loop relies on: new tags have no rows, every key has a target, and without sharing nothing is planned. */
  ghost predicate Emittable(db: Db, shared: bool, first: map<int, (Target, Target)>, plans: seq<Planned>) {
    && (forall i, kind :: 0 <= i < |plans| && !plans[i].p.recycled ==> RowsAt(db.tagRows, plans[i].p.tag, kind) == [])
    && (forall i, j :: 0 <= i < j < |plans| ==> plans[i].p.tag != plans[j].p.tag)
    && (forall i, kind, k :: 0 <= i < |plans| && 0 <= k < |plans[i].Items(kind)| ==> plans[i].Items(kind)[k].key in first)
    && (!shared ==> forall i, kind :: 0 <= i < |plans| ==> plans[i].Items(kind) == [])
  }

  lemma {:induction false} StillNew(db: Db, shared: bool, first: map<int, (Target, Target)>, plans: seq<Planned>, i: nat, kind: Kind)
    requires Emittable(db, shared, first, plans) && i < |plans| && !plans[i].p.recycled
    ensures RowsAt(TagRowsAfter(db.tagRows, plans[..i]), plans[i].p.tag, kind) == []
    ensures RowsAt(TagRowsWith(TagRowsAfter(db.tagRows, plans[..i]), plans[i], Refs), plans[i].p.tag, Defs) == []
  {
    TagRowsKept(db.tagRows, plans[..i], plans[i].p.tag, kind);
    TagRowsKept(db.tagRows, plans[..i], plans[i].p.tag, Defs);
    RowsWith(TagRowsAfter(db.tagRows, plans[..i]), plans[i], Refs, plans[i].p.tag, Defs);
  }

  /** The operations of one placement. */
  method EmitPlan(ghost names: Names, ghost blob: int, ghost db: Db, prior: map<int, Stored>, conflicts: set<int>,
                  first: map<int, (Target, Target)>, shared: bool, mapped: set<int>, plans: seq<Planned>, i: nat)
    returns (ops: seq<Op>, mapped': set<int>, refs: seq<Loose>, defs: seq<Loose>)
    requires Emittable(db, shared, first, plans) && i < |plans| && mapped == MappedKeys(prior, conflicts, plans[..i])
    ensures mapped' == mapped + MappedBy(prior, conflicts, plans[i], Refs) + MappedBy(prior, conflicts, plans[i], Defs)
    ensures refs == KeptBy(prior, conflicts, plans[i], Refs) && defs == KeptBy(prior, conflicts, plans[i], Defs)
    ensures Exec(names, blob, EmittedAll(names, blob, db, prior, conflicts, first, plans[..i]), ops)
         == EmittedAll(names, blob, db, prior, conflicts, first, plans[..i + 1])
  {
    var pl := plans[i];
    ghost var db0 := EmittedAll(names, blob, db, prior, conflicts, first, plans[..i]);
    ghost var db1 := Emitted(names, blob, db0, prior, conflicts, first, pl, Refs);
    if !pl.p.recycled {
      StillNew(db, shared, first, plans, i, Refs);
    }
    MappedAre(names, blob, db, first, mapped);
    hide Exec, Pairs, TagRowsWith, TagRowsAfter, OwnMark, KeptBy, MappedBy, MappedKeys, OwnMarks, AlreadyMapped;
    var refOps, mappedRefs;
    refOps, mappedRefs, refs := EmitKind(names, blob, db0, prior, conflicts, first, shared, mapped, pl, Refs);
    PairsUnion(names, blob, db.resolve, first, mapped, MappedBy(prior, conflicts, pl, Refs));
    MappedAre(names, blob, db, first, mappedRefs);
    var defOps;
    defOps, mapped', defs := EmitKind(names, blob, db1, prior, conflicts, first, shared, mappedRefs, pl, Defs);
    ExecConcat(names, blob, db0, refOps, defOps);
    EmittedStep(names, blob, db, prior, conflicts, first, plans, i);
    ops := refOps + defOps;
  }

  method EmitAll(ghost names: Names, ghost blob: int, ghost db: Db, prior: map<int, Stored>, conflicts: set<int>,
                 first: map<int, (Target, Target)>, shared: bool, plans: seq<Planned>)
    returns (ops: seq<Op>, keptRefs: seq<Loose>, keptDefs: seq<Loose>)
    requires Emittable(db, shared, first, plans)
    ensures keptRefs == Kept(prior, conflicts, plans, Refs) && keptDefs == Kept(prior, conflicts, plans, Defs)
    ensures Exec(names, blob, db, ops) == EmittedAll(names, blob, db, prior, conflicts, first, plans)
  {
    ops, keptRefs, keptDefs := [], [], [];
    var mapped := {};
    NothingEmitted(names, blob, db, prior, conflicts, first);
    for i := 0 to |plans|
      invariant mapped == MappedKeys(prior, conflicts, plans[..i])
      invariant keptRefs == Kept(prior, conflicts, plans[..i], Refs) && keptDefs == Kept(prior, conflicts, plans[..i], Defs)
      invariant Exec(names, blob, db, ops) == EmittedAll(names, blob, db, prior, conflicts, first, plans[..i])
    {
      hide Exec, EmittedAll, Emittable, KeptBy, MappedBy;
      assert plans[..i + 1][..i] == plans[..i];
      var more, refs, defs;
      more, mapped, refs, defs := EmitPlan(names, blob, db, prior, conflicts, first, shared, mapped, plans, i);
      ExecConcat(names, blob, db, ops, more);
      ops := ops + more;
      keptRefs := keptRefs + refs;
      keptDefs := keptDefs + defs;
    }
    assert plans[..|plans|] == plans;
  }

  lemma {:induction false} NothingEmitted(names: Names, blob: int, db: Db, prior: map<int, Stored>, conflicts: set<int>, first: map<int, (Target, Target)>)
    ensures Exec(names, blob, db, []) == EmittedAll(names, blob, db, prior, conflicts, first, [])
  {
    assert db.resolve + Pairs(names, blob, first, {}) == db.resolve;
  }

  // ---------------------------------------------------------------- the collector

  function FileOf(blob: int, names: Names, placements: seq<Placement>, looseRefs: seq<Loose>, looseDefs: seq<Loose>, prior: map<int, Stored>,
                  shared: bool): File
  {
    File(blob, names, Attr.Attributed(placements), looseRefs, looseDefs, prior, shared)
  }

  /** The stored items of a tag. */
  function StoredIn(db: Db, tag: int): Stored {
    Stored(multiset(db.TagRows(tag, Refs)), multiset(db.TagRows(tag, Defs)))
  }

  class Collector {
    var placements: seq<Placement>
    var looseRefs: seq<Loose>
    var looseDefs: seq<Loose>
    var prior: map<int, Stored>

    constructor ()
      ensures placements == [] && looseRefs == [] && looseDefs == [] && prior == map[]
    {
      placements, looseRefs, looseDefs, prior := [], [], [], map[];
    }

    /** Every registered tag once. */
    ghost predicate Valid()
      reads this
    {
      && (forall i, j :: 0 <= i < j < |placements| ==> placements[i].tag != placements[j].tag)
      && (forall i :: 0 <= i < |placements| ==> placements[i].tag != 0 && placements[i].WellKinded())
    }

    method Find(tag: int) returns (i: int)
      ensures 0 <= i ==> i < |placements| && placements[i].tag == tag
      ensures i < 0 ==> forall j :: 0 <= j < |placements| ==> placements[j].tag != tag
    {
      i := 0;
      while i < |placements|
        invariant 0 <= i <= |placements|
        invariant forall j :: 0 <= j < i ==> placements[j].tag != tag
      {
        if placements[i].tag == tag {
          return;
        }
        i := i + 1;
      }
      i := -1;
    }

    /** Note a tag placed in the file; the first registration of a tag counts. */
    method RegisterTag(tag: int, recycled: bool, lineS: int, lineE: int, charS: int, code: string)
      requires Valid()
      modifies this
      ensures Valid()
      ensures looseRefs == old(looseRefs) && looseDefs == old(looseDefs) && prior == old(prior)
      ensures tag == 0 || (exists j :: 0 <= j < |old(placements)| && old(placements)[j].tag == tag) ==> placements == old(placements)
      ensures tag != 0 && (forall j :: 0 <= j < |old(placements)| ==> old(placements)[j].tag != tag) ==>
                placements == old(placements) + [Placement(tag, recycled, lineS, lineE, if charS == 0 then 1 else charS, code, [], [])]
    {
      if tag == 0 {
        return;
      }
      var i := Find(tag);
      if i < 0 {
        placements := placements + [Placement(tag, recycled, lineS, lineE, if charS == 0 then 1 else charS, code, [], [])];
      }
    }

    /** Record an item against a registered tag, or as a loose item. */
    method Record(tag: int, it: Item)
      requires Valid()
      modifies this
      ensures Valid() && |placements| == |old(placements)| && prior == old(prior)
      ensures forall j :: 0 <= j < |placements| ==>
                placements[j] == if tag != 0 && old(placements)[j].tag == tag then Attr.Receive(old(placements)[j], it, it.Kind())
                                 else old(placements)[j]
      ensures var loose := tag == 0 || forall j :: 0 <= j < |old(placements)| ==> old(placements)[j].tag != tag;
              && looseRefs == (if loose && it.RefItem? then old(looseRefs) + [Loose(tag, it)] else old(looseRefs))
              && looseDefs == (if loose && it.DefItem? then old(looseDefs) + [Loose(tag, it)] else old(looseDefs))
    {
      var i := -1;
      if tag != 0 {
        i := Find(tag);
      }
      if i < 0 {
        if it.RefItem? {
          looseRefs := looseRefs + [Loose(tag, it)];
        } else {
          looseDefs := looseDefs + [Loose(tag, it)];
        }
      } else {
        placements := placements[i := Attr.Receive(placements[i], it, it.Kind())];
      }
    }

    /** Load the stored items of the previous version's tags, from the batch's cache if it has them, otherwise from the tables
        if they can be read. */
    method LoadPriorItems(cache: map<int, Stored>, tables: Option<Db>, tags: set<int>)
      requires Valid()
      modifies this`prior
      ensures forall t :: t in tags && t in cache ==> t in prior && prior[t] == cache[t]
      ensures forall t :: t in tags && t !in cache && tables.Some? ==> t in prior && prior[t] == StoredIn(tables.value, t)
      ensures forall t :: t !in tags || (t !in cache && tables.None?) ==>
                (t in prior <==> t in old(prior)) && (t in prior ==> prior[t] == old(prior)[t])
      ensures tables.Some? && (forall t :: t in tags && t in cache ==> cache[t] == StoredIn(tables.value, t)) ==>
                forall t :: t in tags ==> t in prior && prior[t] == StoredIn(tables.value, t)
    {
      hide StoredIn;
      prior := prior + (map t | t in tags && t in cache :: cache[t]);
      if tables.Some? {
        var read := map t | t in tags && t !in cache :: StoredIn(tables.value, t);
        prior := prior + read;
      }
    }

    /** Move items to the innermost tag that contains them. */
    method Attribute()
      requires Valid()
      modifies this`placements
      ensures placements == Attr.Attributed(old(placements))
    {
      if placements == [] {
        return;
      }
      var ps := placements;
      var innermost := Attr.PaintLines(ps);
      var kept, movedRefs, movedDefs := SplitAll(ps, innermost);
      var received := DeliverAll(kept, movedRefs, Refs);
      placements := DeliverAll(received, movedDefs, Defs);
    }

    /** Turn the recorded items into operations, and forget them. */
    method Finish(h: Digests, names: Names, shared: bool, ghost blob: int, ghost db: Db) returns (ops: seq<Op>)
      requires Valid()
      requires Admissible(db, FileOf(blob, names, placements, looseRefs, looseDefs, prior, shared))
      modifies this
      ensures placements == [] && looseRefs == [] && looseDefs == []
      ensures var f := FileOf(blob, names, old(placements), old(looseRefs), old(looseDefs), old(prior), shared);
              Exec(names, blob, db.(bridge := db.bridge + Bridges(blob, f.placements)), ops) == Finished(h, db, f)
    {
      ghost var f := FileOf(blob, names, placements, looseRefs, looseDefs, prior, shared);
      hide Admissible, Finished, Exec, Bridges;
      if placements == [] && looseRefs == [] && looseDefs == [] {
        ops := [];
        assert f.placements == [];
        NothingToFinish(h, db, f);
        return;
      }
      Attribute();
      ops := FinishOps(h, names, placements, looseRefs, looseDefs, prior, shared, db, f);
      placements, looseRefs, looseDefs := [], [], [];
    }
  }

  /** What every placement keeps, and what leaves it. */
  method SplitAll(ps: seq<Placement>, innermost: map<int, nat>) returns (kept: seq<Placement>, refs: seq<Attr.Move>, defs: seq<Attr.Move>)
    requires forall line :: line in innermost <==> Attr.Innermost(ps, |ps|, line).Some?
    requires forall line :: line in innermost ==> Some(innermost[line]) == Attr.Innermost(ps, |ps|, line)
    ensures kept == Attr.AllKept(ps) && refs == Attr.Moves(ps, |ps|, Refs) && defs == Attr.Moves(ps, |ps|, Defs)
  {
    kept, refs, defs := [], [], [];
    for p := 0 to |ps|
      invariant kept == Attr.AllKept(ps)[..p]
      invariant refs == Attr.Moves(ps, p, Refs) && defs == Attr.Moves(ps, p, Defs)
    {
      KeptNext(ps, p);
      hide Attr.Keep, Attr.Leave, Attr.Innermost, Attr.AllKept;
      var keptRefs, leavingRefs := SplitItems(ps, innermost, p, ps[p].refs);
      var keptDefs, leavingDefs := SplitItems(ps, innermost, p, ps[p].defs);
      kept := kept + [ps[p].(refs := keptRefs, defs := keptDefs)];
      refs := refs + leavingRefs;
      defs := defs + leavingDefs;
    }
  }

  lemma {:induction false} KeptNext(ps: seq<Placement>, p: nat)
    requires p < |ps|
    ensures Attr.AllKept(ps)[..p + 1] == Attr.AllKept(ps)[..p] + [Attr.KeptIn(ps, p)]
  {
  }

  method SplitItems(ps: seq<Placement>, innermost: map<int, nat>, p: nat, items: seq<Item>) returns (kept: seq<Item>, leaving: seq<Attr.Move>)
    requires p < |ps|
    requires forall line :: line in innermost <==> Attr.Innermost(ps, |ps|, line).Some?
    requires forall line :: line in innermost ==> Some(innermost[line]) == Attr.Innermost(ps, |ps|, line)
    ensures kept == Attr.Keep(ps, p, items) && leaving == Attr.Leave(ps, p, items)
  {
    kept, leaving := [], [];
    for i := 0 to |items|
      invariant kept == Attr.Keep(ps, p, items[..i]) && leaving == Attr.Leave(ps, p, items[..i])
    {
      assert items[..i + 1][..i] == items[..i];
      var it := items[i];
      var line := Attr.Line(it);
      var owner := if ps[p].Inside(it) || line !in innermost then p else innermost[line];
      if owner == p || !ps[owner].Inside(it) {
        kept := kept + [it];
      } else {
        leaving := leaving + [Attr.Move(owner, it)];
      }
    }
    assert items[..|items|] == items;
  }

  method DeliverAll(ps: seq<Placement>, moves: seq<Attr.Move>, kind: Kind) returns (r: seq<Placement>)
    ensures r == Attr.Deliver(ps, moves, kind)
  {
    r := ps;
    for i := 0 to |moves|
      invariant r == Attr.Deliver(ps, moves[..i], kind)
    {
      assert moves[..i + 1][..i] == moves[..i];
      if moves[i].owner < |r| {
        r := r[moves[i].owner := Attr.Receive(r[moves[i].owner], moves[i].item, kind)];
      }
    }
    assert moves[..|moves|] == moves;
  }

  lemma {:induction false} NothingToFinish(h: Digests, db: Db, f: File)
    requires f.placements == [] && f.looseRefs == [] && f.looseDefs == []
    ensures Exec(f.names, f.blob, db.(bridge := db.bridge + Bridges(f.blob, f.placements)), []) == Finished(h, db, f)
  {
    var plans := FinalPlans(h, f);
    assert plans == [] && Entries(plans) == [];
    assert db.own + OwnMarks(f.blob, f.prior, Conflicts(h, f), plans) == db.own;
    assert ResolveAfter(db.resolve, f, FirstTargets(Entries(plans)), MappedKeys(f.prior, Conflicts(h, f), plans)) == db.resolve;
    assert db.refRows + [] == db.refRows && db.defRows + [] == db.defRows;
  }

  lemma {:induction false} NothingKeyed(h: Digests, p: Placement, items: seq<Item>)
    ensures KeyedItems(h, false, p, items) == []
  {
    if items != [] {
      NothingKeyed(h, p, items[..|items|-1]);
    }
  }

  lemma {:induction false} FinalEmittable(h: Digests, db: Db, f: File)
    requires Admissible(db, f)
    ensures Emittable(db, f.shared, FirstTargets(Entries(FinalPlans(h, f))), FinalPlans(h, f))
  {
    var plans := FinalPlans(h, f);
    FinalPlansFor(h, f);
    assert f.WellFormed();
    hide FinalPlans, Entries, FirstTargets, Admissible;
    forall i, kind | 0 <= i < |plans| && !plans[i].p.recycled ensures RowsAt(db.tagRows, plans[i].p.tag, kind) == [] {
      NewTagRows(db, f, i, kind);
    }
    hide RowsAt;
    forall i, kind, k | 0 <= i < |plans| && 0 <= k < |plans[i].Items(kind)| ensures plans[i].Items(kind)[k].key in FirstTargets(Entries(plans)) {
      HasTarget(plans, i, kind, k);
    }
    if !f.shared {
      forall i, kind | 0 <= i < |plans| ensures plans[i].Items(kind) == [] {
        NothingPlanned(h, f, i, kind);
      }
    }
  }

  lemma {:induction false} NewTagRows(db: Db, f: File, i: nat, kind: Kind)
    requires Admissible(db, f) && i < |f.placements| && !f.placements[i].recycled
    ensures RowsAt(db.tagRows, f.placements[i].tag, kind) == []
  {
    assert TagAdmissible(db, f, f.placements[i]);
    assert kind == Refs || kind == Defs;
  }

  lemma {:induction false} HasTarget(plans: seq<Planned>, i: nat, kind: Kind, k: nat)
    requires i < |plans| && k < |plans[i].Items(kind)|
    ensures plans[i].Items(kind)[k].key in FirstTargets(Entries(plans))
  {
    var e := EntriesContain(plans, i, kind, k);
    hide Entries, FirstTargets;
    FirstTargetsAre(Entries(plans), plans[i].Items(kind)[k].key);
  }

  lemma {:induction false} NothingPlanned(h: Digests, f: File, i: nat, kind: Kind)
    requires !f.shared && i < |FinalPlans(h, f)| == |f.placements|
    ensures FinalPlans(h, f)[i].Items(kind) == []
  {
    var p := f.placements[i];
    NothingKeyed(h, p, p.Items(kind));
    assert PlanOf(h, f.shared, p).Items(kind) == [];
    FinalLoose(h, f, i, kind);
    hide FinalPlans, PlanOf, KeyedItems;
    LooseLength(p.tag, FinalPlans(h, f)[i].Items(kind));
    LooseLength(p.tag, PlanOf(h, f.shared, p).Items(kind));
  }

  lemma {:induction false} LooseLength(tag: int, items: seq<Keyed>)
    ensures |LooseKeyed(tag, items)| == |items|
  {
    if items != [] {
      LooseLength(tag, items[..|items|-1]);
    }
  }

  /** Steps 1 and 2: the items to share under their final keys, those that spill, and the keys with two meanings. */
  method PreparePlans(h: Digests, names: Names, placements: seq<Placement>, shared: bool, ghost f: File)
    returns (plans: seq<Planned>, conflicts: set<int>, refs: seq<Loose>, defs: seq<Loose>)
    requires f.names == names && f.placements == placements && f.shared == shared
    ensures plans == FinalPlans(h, f) && conflicts == Conflicts(h, f)
    ensures refs == SpilledAll(h, shared, placements, Refs) && defs == SpilledAll(h, shared, placements, Defs)
  {
    hide ClashingKeys, Entries, Plans, RefinePlans, SpilledAll;
    plans, refs, defs := PlanAll(h, shared, placements);
    var ambiguous := ClashesOf(names, plans);
    conflicts := {};
    if ambiguous != {} {
      plans := RefineAll(h, ambiguous, plans);
      conflicts := ClashesOf(names, plans);
    }
  }

  /** `finish()` after attribution: keys, ambiguous keys, then the operations. */
  method FinishOps(h: Digests, names: Names, placements: seq<Placement>, looseRefs: seq<Loose>, looseDefs: seq<Loose>,
                   prior: map<int, Stored>, shared: bool, ghost db: Db, ghost f: File)
    returns (ops: seq<Op>)
    requires f == File(f.blob, names, placements, looseRefs, looseDefs, prior, shared) && Admissible(db, f)
    ensures Exec(names, f.blob, db.(bridge := db.bridge + Bridges(f.blob, f.placements)), ops) == Finished(h, db, f)
  {
    FinalEmittable(h, db, f);
    var plans, conflicts, spilledRefs, spilledDefs := PreparePlans(h, names, placements, shared, f);
    ops := WriteOps(h, names, looseRefs, looseDefs, prior, shared, plans, conflicts, spilledRefs, spilledDefs, db, f);
  }

  method WriteOps(ghost h: Digests, ghost names: Names, looseRefs: seq<Loose>, looseDefs: seq<Loose>, prior: map<int, Stored>, shared: bool,
                  plans: seq<Planned>, conflicts: set<int>, spilledRefs: seq<Loose>, spilledDefs: seq<Loose>, ghost db: Db, ghost f: File)
    returns (ops: seq<Op>)
    requires f == File(f.blob, names, f.placements, looseRefs, looseDefs, prior, shared)
    requires Emittable(db, shared, FirstTargets(Entries(plans)), plans)
    requires spilledRefs == SpilledAll(h, shared, f.placements, Refs) && spilledDefs == SpilledAll(h, shared, f.placements, Defs)
    ensures Exec(names, f.blob, db.(bridge := db.bridge + Bridges(f.blob, f.placements)), ops) == Written(h, db, f, plans, conflicts)
  {
    hide Exec, LooseRows, SpilledAll, EmittedAll, Written, FirstTargets, Entries, Kept, AddRows;
    var first := TargetsOf(plans);
    ghost var placed := db.(bridge := db.bridge + Bridges(f.blob, f.placements));
    var keptRefs, keptDefs;
    ops, keptRefs, keptDefs := EmitAll(names, f.blob, placed, prior, conflicts, first, shared, plans);
    ghost var emitted := EmittedAll(names, f.blob, placed, prior, conflicts, first, plans);
    var refs, defs := looseRefs + spilledRefs + keptRefs, looseDefs + spilledDefs + keptDefs;
    var refOps := BlobOps(names, f.blob, emitted, Refs, refs);
    ghost var withRefs := AddRows(emitted, Refs, LooseRows(names, f.blob, refs));
    var defOps := BlobOps(names, f.blob, withRefs, Defs, defs);
    ExecConcat(names, f.blob, placed, ops, refOps);
    ExecConcat(names, f.blob, placed, ops + refOps, defOps);
    WrittenIs(h, db, f, plans, conflicts, first, emitted);
    ops := ops + refOps + defOps;
  }

  lemma {:induction false} ResolvePairs(f: File, resolve: map<(int, int), (int, int)>, first: map<int, (Target, Target)>, keys: set<int>)
    ensures ResolveAfter(resolve, f, first, keys) == resolve + Pairs(f.names, f.blob, first, keys)
  {
  }

  lemma {:induction false} WrittenIs(h: Digests, db: Db, f: File, plans: seq<Planned>, conflicts: set<int>, first: map<int, (Target, Target)>, emitted: Db)
    requires first == FirstTargets(Entries(plans))
    requires emitted == EmittedAll(f.names, f.blob, db.(bridge := db.bridge + Bridges(f.blob, f.placements)), f.prior, conflicts, first, plans)
    ensures Written(h, db, f, plans, conflicts)
         == AddRows(AddRows(emitted, Refs, LooseRows(f.names, f.blob, BlobItems(h, f, plans, conflicts, Refs))),
                    Defs, LooseRows(f.names, f.blob, BlobItems(h, f, plans, conflicts, Defs)))
  {
    hide FirstTargets, Entries, TagRowsAfter, OwnMarks, MappedKeys, LooseRows, BlobItems, Bridges, Pairs, ResolveAfter;
    ResolvePairs(f, db.resolve, first, MappedKeys(f.prior, conflicts, plans));
  }
}
