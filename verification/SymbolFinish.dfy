/** `finish()` of core/SymbolRows.py: which of a file's items are shared through their tag, which are stored per
    blob, and the theorem that the views return exactly what was recorded, over every history of files. */
module SymbolFinish {
  import opened SymbolModel

  datatype Keyed = Keyed(key: int, item: Item)

  /** A placement with the items that may be shared, each under its key. */
  datatype Planned = Planned(p: Placement, refs: seq<Keyed>, defs: seq<Keyed>) {
    function Items(kind: Kind): seq<Keyed> {
      if kind == Refs then refs else defs
    }
  }

  /** An item stored per blob, with the tag it is shown under. */
  datatype Loose = Loose(tag: int, item: Item)

  /** What `load_prior_items` found for a tag of the previous version. */
  datatype Stored = Stored(refs: multiset<Shared>, defs: multiset<Shared>) {
    function Of(kind: Kind): multiset<Shared> {
      if kind == Refs then refs else defs
    }
  }

  /** One call of `finish()`: a file's items after attribution, and the layout chosen. */
  datatype File = File(blob: int, names: Names, placements: seq<Placement>, looseRefs: seq<Loose>, looseDefs: seq<Loose>,
                       prior: map<int, Stored>, shared: bool)
  {
    function LooseOf(kind: Kind): seq<Loose> {
      if kind == Refs then looseRefs else looseDefs
    }

    ghost predicate WellFormed() {
      && (forall i, j :: 0 <= i < j < |placements| ==> placements[i].tag != placements[j].tag)
      && (forall i :: 0 <= i < |placements| ==> placements[i].WellKinded())
    }
  }

  // ---------------------------------------------------------------- step 1: keys

  function KeyOf(h: Digests, p: Placement, it: Item): int {
    match it
    case RefItem(_, _, role, line, charS) =>
      h.key(RefText(h.digest(p.code), h.token(p.code, p.charS, line - p.lineS, charS), role))
    case DefItem(_, name, typeId, _, _, _) => h.key(DefText(h.digest(p.code), name, typeId))
  }

  /** The items that lie inside their tag, under their keys. */
  function KeyedItems(h: Digests, shared: bool, p: Placement, items: seq<Item>): seq<Keyed> {
    if items == [] then []
    else
      KeyedItems(h, shared, p, items[..|items|-1]) +
      var it := items[|items|-1];
      if shared && p.Inside(it) then [Keyed(KeyOf(h, p, it), it)] else []
  }

  function OutsideItems(shared: bool, p: Placement, items: seq<Item>): seq<Loose> {
    if items == [] then []
    else
      OutsideItems(shared, p, items[..|items|-1]) +
      var it := items[|items|-1];
      if shared && p.Inside(it) then [] else [Loose(p.tag, it)]
  }

  function LooseKeyed(tag: int, items: seq<Keyed>): seq<Loose> {
    if items == [] then [] else LooseKeyed(tag, items[..|items|-1]) + [Loose(tag, items[|items|-1].item)]
  }

  function PlanOf(h: Digests, shared: bool, p: Placement): Planned {
    var defs := KeyedItems(h, shared, p, p.defs);
    Planned(p, KeyedItems(h, shared, p, p.refs), if |defs| > MAX_TAG_DEFS then [] else defs)
  }

  /** The items of a placement step 1 already stores per blob. */
  function Spilled(h: Digests, shared: bool, p: Placement, kind: Kind): seq<Loose> {
    OutsideItems(shared, p, p.Items(kind)) +
    var keyed := KeyedItems(h, shared, p, p.Items(kind));
    if kind == Defs && |keyed| > MAX_TAG_DEFS then LooseKeyed(p.tag, keyed) else []
  }

  function Plans(h: Digests, shared: bool, ps: seq<Placement>): (r: seq<Planned>)
    ensures |r| == |ps|
    ensures forall i :: 0 <= i < |ps| ==> r[i] == PlanOf(h, shared, ps[i])
  {
    if ps == [] then [] else Plans(h, shared, ps[..|ps|-1]) + [PlanOf(h, shared, ps[|ps|-1])]
  }

  function SpilledAll(h: Digests, shared: bool, ps: seq<Placement>, kind: Kind): seq<Loose> {
    if ps == [] then [] else SpilledAll(h, shared, ps[..|ps|-1], kind) + Spilled(h, shared, ps[|ps|-1], kind)
  }

  // ---------------------------------------------------------------- step 2: ambiguous keys

  function Entries(plans: seq<Planned>): seq<Keyed> {
    if plans == [] then [] else Entries(plans[..|plans|-1]) + plans[|plans|-1].refs + plans[|plans|-1].defs
  }

  function Print(names: Names, it: Item): (int, int) {
    (names.fp(it.Pair().0), names.fp(it.Pair().1))
  }

  /** Two items of the file use the key for targets that are not known to be the same. */
  ghost predicate Clashes(names: Names, entries: seq<Keyed>, key: int) {
    exists i, j :: 0 <= i < |entries| && 0 <= j < |entries| && entries[i].key == key == entries[j].key
                   && Print(names, entries[i].item) != Print(names, entries[j].item)
  }

  ghost function ClashingKeys(names: Names, entries: seq<Keyed>): set<int> {
    set i | 0 <= i < |entries| && Clashes(names, entries, entries[i].key) :: entries[i].key
  }

  function RefinedKey(h: Digests, p: Placement, k: Keyed): int {
    match k.item
    case RefItem(_, _, _, line, charS) => h.key(AtText(k.key, line - p.lineS, charS))
    case DefItem(_, _, _, _, lineS, lineE) => h.key(AtText(k.key, lineS - p.lineS, lineE - p.lineS))
  }

  function RefineItems(h: Digests, ambiguous: set<int>, p: Placement, items: seq<Keyed>): (r: seq<Keyed>)
    ensures |r| == |items|
    ensures forall i :: 0 <= i < |items| ==> r[i].item == items[i].item
  {
    if items == [] then []
    else
      var k := items[|items|-1];
      RefineItems(h, ambiguous, p, items[..|items|-1]) +
      [if k.key in ambiguous then Keyed(RefinedKey(h, p, k), k.item) else k]
  }

  function RefinePlan(h: Digests, ambiguous: set<int>, pl: Planned): Planned {
    Planned(pl.p, RefineItems(h, ambiguous, pl.p, pl.refs), RefineItems(h, ambiguous, pl.p, pl.defs))
  }

  function RefinePlans(h: Digests, ambiguous: set<int>, plans: seq<Planned>): (r: seq<Planned>)
    ensures |r| == |plans|
    ensures forall i :: 0 <= i < |plans| ==> r[i] == RefinePlan(h, ambiguous, plans[i])
  {
    if plans == [] then []
    else RefinePlans(h, ambiguous, plans[..|plans|-1]) + [RefinePlan(h, ambiguous, plans[|plans|-1])]
  }

  /** The plans the rows are written from, and the keys that still mean two targets. */
  ghost function FinalPlans(h: Digests, f: File): seq<Planned> {
    var plans := Plans(h, f.shared, f.placements);
    var ambiguous := ClashingKeys(f.names, Entries(plans));
    if ambiguous == {} then plans else RefinePlans(h, ambiguous, plans)
  }

  ghost function Conflicts(h: Digests, f: File): set<int> {
    if ClashingKeys(f.names, Entries(Plans(h, f.shared, f.placements))) == {} then {}
    else ClashingKeys(f.names, Entries(FinalPlans(h, f)))
  }

  /** The target a key stands for: that of its first item. */
  function FirstTargets(entries: seq<Keyed>): map<int, (Target, Target)> {
    if entries == [] then map[]
    else
      var m := FirstTargets(entries[..|entries|-1]);
      var k := entries[|entries|-1];
      if k.key in m then m else m[k.key := k.item.Pair()]
  }

  // ---------------------------------------------------------------- step 3: who keeps its items

  function SharedAll(items: seq<Keyed>, lineS: int): seq<Shared> {
    if items == [] then []
    else SharedAll(items[..|items|-1], lineS) + [SharedOf(items[|items|-1].key, items[|items|-1].item, lineS)]
  }

  lemma {:induction false} SharedAllRows(items: seq<Keyed>, lineS: int)
    ensures SharedAll(items, lineS) == seq(|items|, k requires 0 <= k < |items| => SharedOf(items[k].key, items[k].item, lineS))
  {
    if items != [] {
      SharedAllRows(items[..|items|-1], lineS);
    }
  }

  predicate AnyConflict(items: seq<Keyed>, conflicts: set<int>) {
    exists i :: 0 <= i < |items| && items[i].key in conflicts
  }

  /** The items of this placement are stored per blob: they differ from the tag's rows, or use a conflicting key. */
  predicate KeepsOwn(prior: map<int, Stored>, conflicts: set<int>, pl: Planned, kind: Kind) {
    var items := pl.Items(kind);
    || (pl.p.recycled
        && if pl.p.tag in prior
           then multiset(SharedAll(items, pl.p.lineS)) != prior[pl.p.tag].Of(kind)
           else items != [])
    || AnyConflict(items, conflicts)
  }

  predicate HasSharedRows(prior: map<int, Stored>, pl: Planned, kind: Kind) {
    if pl.p.recycled then pl.p.tag in prior && prior[pl.p.tag].Of(kind) != multiset{}
    else pl.Items(kind) != []
  }

  function OwnMark(blob: int, prior: map<int, Stored>, conflicts: set<int>, pl: Planned, kind: Kind): set<(int, int, Kind)> {
    if KeepsOwn(prior, conflicts, pl, kind) && HasSharedRows(prior, pl, kind) then {(blob, pl.p.tag, kind)} else {}
  }

  function OwnMarks(blob: int, prior: map<int, Stored>, conflicts: set<int>, plans: seq<Planned>): set<(int, int, Kind)> {
    if plans == [] then {}
    else
      OwnMarks(blob, prior, conflicts, plans[..|plans|-1])
      + OwnMark(blob, prior, conflicts, plans[|plans|-1], Refs)
      + OwnMark(blob, prior, conflicts, plans[|plans|-1], Defs)
  }

  function KeyedKeys(items: seq<Keyed>): set<int> {
    set i | 0 <= i < |items| :: items[i].key
  }

  function MappedBy(prior: map<int, Stored>, conflicts: set<int>, pl: Planned, kind: Kind): set<int> {
    if KeepsOwn(prior, conflicts, pl, kind) then {} else KeyedKeys(pl.Items(kind))
  }

  function MappedKeys(prior: map<int, Stored>, conflicts: set<int>, plans: seq<Planned>): set<int> {
    if plans == [] then {}
    else
      MappedKeys(prior, conflicts, plans[..|plans|-1])
      + MappedBy(prior, conflicts, plans[|plans|-1], Refs)
      + MappedBy(prior, conflicts, plans[|plans|-1], Defs)
  }

  function KeptBy(prior: map<int, Stored>, conflicts: set<int>, pl: Planned, kind: Kind): seq<Loose> {
    if KeepsOwn(prior, conflicts, pl, kind) then LooseKeyed(pl.p.tag, pl.Items(kind)) else []
  }

  function Kept(prior: map<int, Stored>, conflicts: set<int>, plans: seq<Planned>, kind: Kind): seq<Loose> {
    if plans == [] then []
    else Kept(prior, conflicts, plans[..|plans|-1], kind) + KeptBy(prior, conflicts, plans[|plans|-1], kind)
  }

  /** The rows a tag has after a placement of it: a new tag stores its items, a reused one writes nothing. */
  function TagRowsWith(rows: map<(int, Kind), seq<Shared>>, pl: Planned, kind: Kind): map<(int, Kind), seq<Shared>> {
    if pl.p.recycled || pl.Items(kind) == [] then rows
    else
      var before := if (pl.p.tag, kind) in rows then rows[(pl.p.tag, kind)] else [];
      rows[(pl.p.tag, kind) := before + SharedAll(pl.Items(kind), pl.p.lineS)]
  }

  function TagRowsAfter(rows: map<(int, Kind), seq<Shared>>, plans: seq<Planned>): map<(int, Kind), seq<Shared>> {
    if plans == [] then rows
    else
      var last := plans[|plans|-1];
      TagRowsWith(TagRowsWith(TagRowsAfter(rows, plans[..|plans|-1]), last, Refs), last, Defs)
  }

  function LooseRows(names: Names, blob: int, items: seq<Loose>): seq<ViewRow> {
    if items == [] then []
    else LooseRows(names, blob, items[..|items|-1]) + [RowOf(names, blob, items[|items|-1].tag, items[|items|-1].item)]
  }

  function Bridges(blob: int, ps: seq<Placement>): (r: seq<Bridge>)
    ensures |r| == |ps|
    ensures forall i :: 0 <= i < |ps| ==> r[i] == Bridge(blob, ps[i].tag, ps[i].lineS)
  {
    seq(|ps|, i requires 0 <= i < |ps| => Bridge(blob, ps[i].tag, ps[i].lineS))
  }

  function ResolveAfter(resolve: map<(int, int), (int, int)>, f: File, first: map<int, (Target, Target)>, mapped: set<int>):
    map<(int, int), (int, int)>
  {
    resolve + (map k | k in mapped && k in first :: (f.blob, k) := (f.names.row(first[k].0), f.names.row(first[k].1)))
  }

  /** The per-blob rows of one kind: tagless items, items outside their tag, then those of placements that keep their own. */
  function BlobItems(h: Digests, f: File, plans: seq<Planned>, conflicts: set<int>, kind: Kind): seq<Loose> {
    f.LooseOf(kind) + SpilledAll(h, f.shared, f.placements, kind) + Kept(f.prior, conflicts, plans, kind)
  }

  function Written(h: Digests, db: Db, f: File, plans: seq<Planned>, conflicts: set<int>): Db {
    Db(db.bridge + Bridges(f.blob, f.placements),
       TagRowsAfter(db.tagRows, plans),
       ResolveAfter(db.resolve, f, FirstTargets(Entries(plans)), MappedKeys(f.prior, conflicts, plans)),
       db.own + OwnMarks(f.blob, f.prior, conflicts, plans),
       db.refRows + LooseRows(f.names, f.blob, BlobItems(h, f, plans, conflicts, Refs)),
       db.defRows + LooseRows(f.names, f.blob, BlobItems(h, f, plans, conflicts, Defs)))
  }

  /** The database after a file's operations: its placements, and the rows `finish()` wrote. */
  ghost function Finished(h: Digests, db: Db, f: File): Db {
    Written(h, db, f, FinalPlans(h, f), Conflicts(h, f))
  }

  // ---------------------------------------------------------------- the reference: what was recorded

  function ItemRows(names: Names, blob: int, tag: int, items: seq<Item>): seq<ViewRow> {
    if items == [] then []
    else ItemRows(names, blob, tag, items[..|items|-1]) + [RowOf(names, blob, tag, items[|items|-1])]
  }

  function PlacedRows(names: Names, blob: int, ps: seq<Placement>, kind: Kind): seq<ViewRow> {
    if ps == [] then []
    else PlacedRows(names, blob, ps[..|ps|-1], kind) + ItemRows(names, blob, ps[|ps|-1].tag, ps[|ps|-1].Items(kind))
  }

  /** One row for every item recorded for the file, with its resolved target. */
  function Recorded(f: File, kind: Kind): multiset<ViewRow> {
    multiset(LooseRows(f.names, f.blob, f.LooseOf(kind))) + multiset(PlacedRows(f.names, f.blob, f.placements, kind))
  }

  // ---------------------------------------------------------------- preconditions on the database

  /** Targets that compare equal end up with the same row, and the file fits the database. */
  ghost predicate Admissible(db: Db, f: File) {
    f.names.Sound() && Fits(db, f)
  }

  /** The blob is new, new tags are new, and the stored items of every reused tag were loaded. */
  ghost predicate Fits(db: Db, f: File) {
    && f.WellFormed()
    && (forall i :: 0 <= i < |db.bridge| ==> db.bridge[i].blob != f.blob)
    && (forall tag, kind :: (f.blob, tag, kind) !in db.own)
    && (forall key :: (f.blob, key) !in db.resolve)
    && (forall i :: 0 <= i < |f.placements| ==> TagAdmissible(db, f, f.placements[i]))
  }

  ghost predicate TagAdmissible(db: Db, f: File, p: Placement) {
    if p.recycled then
      && p.tag in f.prior
      && f.prior[p.tag].refs == multiset(db.TagRows(p.tag, Refs))
      && f.prior[p.tag].defs == multiset(db.TagRows(p.tag, Defs))
    else
      && db.TagRows(p.tag, Refs) == db.TagRows(p.tag, Defs) == []
      && (forall i :: 0 <= i < |db.bridge| ==> db.bridge[i].tag != p.tag)
  }

  // ---------------------------------------------------------------- the pieces of Finished

  lemma {:induction false} OwnMarksAre(blob: int, prior: map<int, Stored>, conflicts: set<int>, plans: seq<Planned>, b: int, tag: int,
                                       kind: Kind)
    ensures (b, tag, kind) in OwnMarks(blob, prior, conflicts, plans) <==>
            b == blob && exists i :: 0 <= i < |plans| && plans[i].p.tag == tag
                                     && KeepsOwn(prior, conflicts, plans[i], kind) && HasSharedRows(prior, plans[i], kind)
  {
    if plans != [] {
      OwnMarksAre(blob, prior, conflicts, plans[..|plans|-1], b, tag, kind);
      var last := |plans| - 1;
      if plans[last].p.tag == tag && KeepsOwn(prior, conflicts, plans[last], kind) && HasSharedRows(prior, plans[last], kind) && b == blob {
        assert (b, tag, kind) in OwnMark(blob, prior, conflicts, plans[last], kind);
      }
    }
  }

  lemma {:induction false} MappedKeysAre(prior: map<int, Stored>, conflicts: set<int>, plans: seq<Planned>, i: int, kind: Kind, k: int)
    requires 0 <= i < |plans| && 0 <= k < |plans[i].Items(kind)|
    requires !KeepsOwn(prior, conflicts, plans[i], kind)
    ensures plans[i].Items(kind)[k].key in MappedKeys(prior, conflicts, plans)
  {
    if i == |plans| - 1 {
      assert plans[i].Items(kind)[k].key in MappedBy(prior, conflicts, plans[i], kind);
    } else {
      MappedKeysAre(prior, conflicts, plans[..|plans|-1], i, kind, k);
    }
  }

  function RowsAt(rows: map<(int, Kind), seq<Shared>>, tag: int, kind: Kind): seq<Shared> {
    if (tag, kind) in rows then rows[(tag, kind)] else []
  }

  lemma {:induction false} RowsWith(rows: map<(int, Kind), seq<Shared>>, pl: Planned, written: Kind, tag: int, kind: Kind)
    ensures RowsAt(TagRowsWith(rows, pl, written), tag, kind)
         == RowsAt(rows, tag, kind) +
            (if !pl.p.recycled && pl.p.tag == tag && written == kind then SharedAll(pl.Items(kind), pl.p.lineS) else [])
  {
  }

  lemma {:induction false} RowsWithBoth(rows: map<(int, Kind), seq<Shared>>, pl: Planned, tag: int, kind: Kind)
    ensures RowsAt(TagRowsWith(TagRowsWith(rows, pl, Refs), pl, Defs), tag, kind)
         == RowsAt(rows, tag, kind) + (if !pl.p.recycled && pl.p.tag == tag then SharedAll(pl.Items(kind), pl.p.lineS) else [])
  {
    hide TagRowsWith, SharedAll, RowsAt;
    RowsWith(rows, pl, Refs, tag, kind);
    RowsWith(TagRowsWith(rows, pl, Refs), pl, Defs, tag, kind);
  }

  /** The rows of a tag that no plan creates stay as they are. */
  lemma {:induction false} TagRowsKept(rows: map<(int, Kind), seq<Shared>>, plans: seq<Planned>, tag: int, kind: Kind)
    requires forall i :: 0 <= i < |plans| && plans[i].p.tag == tag ==> plans[i].p.recycled
    ensures RowsAt(TagRowsAfter(rows, plans), tag, kind) == RowsAt(rows, tag, kind)
  {
    hide TagRowsWith, SharedAll, RowsAt;
    if plans != [] {
      var front := plans[..|plans|-1];
      TagRowsKept(rows, front, tag, kind);
      RowsWithBoth(TagRowsAfter(rows, front), plans[|plans|-1], tag, kind);
    }
  }

  /** A new tag gets the rows of its one placement. */
  lemma {:induction false} TagRowsNew(rows: map<(int, Kind), seq<Shared>>, plans: seq<Planned>, i: int, kind: Kind)
    requires 0 <= i < |plans| && !plans[i].p.recycled
    requires forall j :: 0 <= j < |plans| && j != i ==> plans[j].p.tag != plans[i].p.tag
    ensures RowsAt(TagRowsAfter(rows, plans), plans[i].p.tag, kind)
         == RowsAt(rows, plans[i].p.tag, kind) + SharedAll(plans[i].Items(kind), plans[i].p.lineS)
  {
    hide TagRowsWith, SharedAll, RowsAt;
    var front := plans[..|plans|-1];
    RowsWithBoth(TagRowsAfter(rows, front), plans[|plans|-1], plans[i].p.tag, kind);
    if i == |plans| - 1 {
      TagRowsKept(rows, front, plans[i].p.tag, kind);
    } else {
      TagRowsNew(rows, front, i, kind);
    }
  }

  lemma {:induction false} EntriesContain(plans: seq<Planned>, i: int, kind: Kind, k: int) returns (e: int)
    requires 0 <= i < |plans| && 0 <= k < |plans[i].Items(kind)|
    ensures 0 <= e < |Entries(plans)| && Entries(plans)[e] == plans[i].Items(kind)[k]
  {
    var front := Entries(plans[..|plans|-1]);
    if i < |plans| - 1 {
      e := EntriesContain(plans[..|plans|-1], i, kind, k);
    } else {
      e := |front| + (if kind == Refs then k else |plans[i].refs| + k);
    }
  }

  /** The target chosen for a key is the target of some item that uses it. */
  lemma {:induction false} FirstTargetsAre(entries: seq<Keyed>, key: int)
    ensures key in FirstTargets(entries) <==> exists i :: 0 <= i < |entries| && entries[i].key == key
    ensures key in FirstTargets(entries) ==>
            exists i :: 0 <= i < |entries| && entries[i].key == key && entries[i].item.Pair() == FirstTargets(entries)[key]
  {
    if entries != [] {
      var front := entries[..|entries|-1];
      FirstTargetsAre(front, key);
      if key in FirstTargets(front) {
        var i :| 0 <= i < |front| && front[i].key == key && front[i].item.Pair() == FirstTargets(front)[key];
        assert entries[i] == front[i];
      }
      if key in FirstTargets(entries) && key !in FirstTargets(front) {
        assert entries[|entries|-1].key == key;
      }
    }
  }

  /** Without a clash, every item resolves to the same rows as the key's first item. */
  lemma {:induction false} NoClashResolves(names: Names, entries: seq<Keyed>, e: int)
    requires names.Sound() && 0 <= e < |entries| && !Clashes(names, entries, entries[e].key)
    ensures var first := FirstTargets(entries);
            && entries[e].key in first
            && names.row(first[entries[e].key].0) == names.row(entries[e].item.Pair().0)
            && names.row(first[entries[e].key].1) == names.row(entries[e].item.Pair().1)
  {
    var key := entries[e].key;
    FirstTargetsAre(entries, key);
    var i :| 0 <= i < |entries| && entries[i].key == key && entries[i].item.Pair() == FirstTargets(entries)[key];
    assert Print(names, entries[i].item) == Print(names, entries[e].item);
  }

  lemma {:induction false} ConflictFree(h: Digests, f: File, key: int)
    requires key !in Conflicts(h, f)
    ensures !Clashes(f.names, Entries(FinalPlans(h, f)), key)
  {
  }

  // ---------------------------------------------------------------- one placement

  /** Rows shown for the items of one placement when all of them are resolved. */
  lemma {:induction false} ExpandShared(f: File, resolve: map<(int, int), (int, int)>, p: Placement, items: seq<Keyed>)
    requires forall i :: 0 <= i < |items| ==> (f.blob, items[i].key) in resolve
    requires forall i :: 0 <= i < |items| ==>
               resolve[(f.blob, items[i].key)] == (f.names.row(items[i].item.Pair().0), f.names.row(items[i].item.Pair().1))
    ensures ExpandAll(resolve, Bridge(f.blob, p.tag, p.lineS), SharedAll(items, p.lineS)) == LooseRows(f.names, f.blob, LooseKeyed(p.tag, items))
  {
    if items != [] {
      var front := items[..|items|-1];
      ExpandShared(f, resolve, p, front);
      assert forall i :: 0 <= i < |front| ==> front[i] == items[i];
      var rows := SharedAll(items, p.lineS);
      assert rows[..|rows|-1] == SharedAll(front, p.lineS);
      var loose := LooseKeyed(p.tag, items);
      assert loose[..|loose|-1] == LooseKeyed(p.tag, front);
    }
  }

  lemma {:induction false} LooseConcat(names: Names, blob: int, xs: seq<Loose>, ys: seq<Loose>)
    ensures LooseRows(names, blob, xs + ys) == LooseRows(names, blob, xs) + LooseRows(names, blob, ys)
  {
    if ys == [] {
      assert xs + ys == xs;
    } else {
      assert (xs + ys)[..|xs + ys|-1] == xs + ys[..|ys|-1];
      LooseConcat(names, blob, xs, ys[..|ys|-1]);
    }
  }

  lemma {:induction false} LooseAppend(names: Names, blob: int, xs: seq<Loose>, x: Loose)
    ensures LooseRows(names, blob, xs + [x]) == LooseRows(names, blob, xs) + [RowOf(names, blob, x.tag, x.item)]
  {
    assert (xs + [x])[..|xs|] == xs;
  }

  lemma {:induction false} AppendSplit<T>(a: seq<T>, b: seq<T>, all: seq<T>, x: T)
    requires multiset(a) + multiset(b) == multiset(all)
    ensures multiset(a + [x]) + multiset(b) == multiset(all + [x])
    ensures multiset(a) + multiset(b + [x]) == multiset(all + [x])
  {
  }

  /** The items inside their tag and the items outside it are all the items. */
  lemma {:induction false} SplitInside(h: Digests, f: File, p: Placement, items: seq<Item>)
    ensures multiset(LooseRows(f.names, f.blob, LooseKeyed(p.tag, KeyedItems(h, f.shared, p, items))))
          + multiset(LooseRows(f.names, f.blob, OutsideItems(f.shared, p, items)))
         == multiset(ItemRows(f.names, f.blob, p.tag, items))
  {
    if items != [] {
      var front, it := items[..|items|-1], items[|items|-1];
      SplitInside(h, f, p, front);
      var keyed, outside := KeyedItems(h, f.shared, p, front), OutsideItems(f.shared, p, front);
      var a, b := LooseRows(f.names, f.blob, LooseKeyed(p.tag, keyed)), LooseRows(f.names, f.blob, outside);
      var all, row := ItemRows(f.names, f.blob, p.tag, front), RowOf(f.names, f.blob, p.tag, it);
      AppendSplit(a, b, all, row);
      assert ItemRows(f.names, f.blob, p.tag, items) == all + [row];
      if f.shared && p.Inside(it) {
        var k := Keyed(KeyOf(h, p, it), it);
        KeyedAppend(f, p, keyed, k);
        assert KeyedItems(h, f.shared, p, items) == keyed + [k];
        assert OutsideItems(f.shared, p, items) == outside;
        assert LooseRows(f.names, f.blob, LooseKeyed(p.tag, KeyedItems(h, f.shared, p, items))) == a + [row];
      } else {
        LooseAppend(f.names, f.blob, outside, Loose(p.tag, it));
        assert KeyedItems(h, f.shared, p, items) == keyed;
        assert OutsideItems(f.shared, p, items) == outside + [Loose(p.tag, it)];
        assert LooseRows(f.names, f.blob, OutsideItems(f.shared, p, items)) == b + [row];
      }
    }
  }

  lemma {:induction false} KeyedAppend(f: File, p: Placement, keyed: seq<Keyed>, k: Keyed)
    ensures LooseRows(f.names, f.blob, LooseKeyed(p.tag, keyed + [k]))
         == LooseRows(f.names, f.blob, LooseKeyed(p.tag, keyed)) + [RowOf(f.names, f.blob, p.tag, k.item)]
  {
    assert (keyed + [k])[..|keyed|] == keyed;
    LooseAppend(f.names, f.blob, LooseKeyed(p.tag, keyed), Loose(p.tag, k.item));
  }

  lemma {:induction false} RefinedLoose(h: Digests, ambiguous: set<int>, p: Placement, items: seq<Keyed>)
    ensures LooseKeyed(p.tag, RefineItems(h, ambiguous, p, items)) == LooseKeyed(p.tag, items)
  {
    if items != [] {
      var refined := RefineItems(h, ambiguous, p, items);
      assert refined[..|refined|-1] == RefineItems(h, ambiguous, p, items[..|items|-1]);
      RefinedLoose(h, ambiguous, p, items[..|items|-1]);
    }
  }

  lemma {:induction false} FinalLoose(h: Digests, f: File, i: int, kind: Kind)
    requires 0 <= i < |f.placements|
    ensures |FinalPlans(h, f)| == |f.placements| && FinalPlans(h, f)[i].p == f.placements[i]
    ensures LooseKeyed(f.placements[i].tag, FinalPlans(h, f)[i].Items(kind))
         == LooseKeyed(f.placements[i].tag, PlanOf(h, f.shared, f.placements[i]).Items(kind))
  {
    var p := f.placements[i];
    var ambiguous := ClashingKeys(f.names, Entries(Plans(h, f.shared, f.placements)));
    RefinedLoose(h, ambiguous, p, PlanOf(h, f.shared, p).Items(kind));
  }

  lemma {:induction false} NoRows(f: File, tag: int)
    ensures LooseRows(f.names, f.blob, LooseKeyed(tag, [])) == []
  {
  }

  lemma {:induction false} SpillRows(h: Digests, f: File, p: Placement, kind: Kind)
    ensures multiset(LooseRows(f.names, f.blob, LooseKeyed(p.tag, PlanOf(h, f.shared, p).Items(kind))))
          + multiset(LooseRows(f.names, f.blob, Spilled(h, f.shared, p, kind)))
         == multiset(ItemRows(f.names, f.blob, p.tag, p.Items(kind)))
  {
    hide KeyedItems, OutsideItems, LooseKeyed, LooseRows, ItemRows;
    var keyed, outside := KeyedItems(h, f.shared, p, p.Items(kind)), OutsideItems(f.shared, p, p.Items(kind));
    SplitInside(h, f, p, p.Items(kind));
    if kind == Defs && |keyed| > MAX_TAG_DEFS {
      LooseConcat(f.names, f.blob, outside, LooseKeyed(p.tag, keyed));
      assert Spilled(h, f.shared, p, kind) == outside + LooseKeyed(p.tag, keyed);
      NoRows(f, p.tag);
    } else {
      assert PlanOf(h, f.shared, p).Items(kind) == keyed && Spilled(h, f.shared, p, kind) == outside;
    }
  }

  // ---------------------------------------------------------------- one file

  ghost predicate PlansFor(f: File, plans: seq<Planned>) {
    |plans| == |f.placements| && forall i :: 0 <= i < |plans| ==> plans[i].p == f.placements[i]
  }

  lemma {:induction false} FinalPlansFor(h: Digests, f: File)
    ensures PlansFor(f, FinalPlans(h, f))
  {
    var ambiguous := ClashingKeys(f.names, Entries(Plans(h, f.shared, f.placements)));
    if ambiguous == {} {
      assert FinalPlans(h, f) == Plans(h, f.shared, f.placements);
    } else {
      assert FinalPlans(h, f) == RefinePlans(h, ambiguous, Plans(h, f.shared, f.placements));
    }
  }

  /** A reused tag keeps its rows, a new tag gets those of its placement. */
  lemma {:induction false} TagAfter(db: Db, f: File, plans: seq<Planned>, i: int, kind: Kind)
    requires Admissible(db, f) && PlansFor(f, plans) && 0 <= i < |plans|
    ensures RowsAt(TagRowsAfter(db.tagRows, plans), plans[i].p.tag, kind)
         == if plans[i].p.recycled then db.TagRows(plans[i].p.tag, kind) else SharedAll(plans[i].Items(kind), plans[i].p.lineS)
  {
    var p := f.placements[i];
    assert TagAdmissible(db, f, p);
    assert forall j :: 0 <= j < |plans| && j != i ==> plans[j].p.tag != p.tag;
    if p.recycled {
      TagRowsKept(db.tagRows, plans, p.tag, kind);
    } else {
      TagRowsNew(db.tagRows, plans, i, kind);
      assert [] + SharedAll(plans[i].Items(kind), p.lineS) == SharedAll(plans[i].Items(kind), p.lineS);
    }
  }

  lemma {:induction false} EmptyRows<T>(rows: seq<T>)
    requires multiset(rows) == multiset{}
    ensures rows == []
  {
    assert |rows| == |multiset(rows)|;
  }

  /** A placement without shared rows has none in the database either. */
  lemma {:induction false} NothingStored(db: Db, f: File, plans: seq<Planned>, i: int, kind: Kind)
    requires Admissible(db, f) && PlansFor(f, plans) && 0 <= i < |plans|
    requires !HasSharedRows(f.prior, plans[i], kind)
    ensures RowsAt(TagRowsAfter(db.tagRows, plans), plans[i].p.tag, kind) == []
  {
    TagAfter(db, f, plans, i, kind);
    assert TagAdmissible(db, f, f.placements[i]);
    if plans[i].p.recycled {
      EmptyRows(db.TagRows(plans[i].p.tag, kind));
    }
  }

  /** The rows of the tag are the items of this placement, whether it is new or reused. */
  lemma {:induction false} TagShows(db: Db, f: File, plans: seq<Planned>, conflicts: set<int>, i: int, kind: Kind)
    requires Admissible(db, f) && PlansFor(f, plans) && 0 <= i < |plans|
    requires !KeepsOwn(f.prior, conflicts, plans[i], kind)
    ensures multiset(RowsAt(TagRowsAfter(db.tagRows, plans), plans[i].p.tag, kind))
         == multiset(SharedAll(plans[i].Items(kind), plans[i].p.lineS))
  {
    TagAfter(db, f, plans, i, kind);
    assert TagAdmissible(db, f, f.placements[i]);
  }

  /** A shared placement shows its items once its tag's rows are those items and their keys resolve. */
  lemma {:induction false} SharedShows(f: File, db': Db, p: Placement, items: seq<Keyed>, kind: Kind)
    requires (f.blob, p.tag, kind) !in db'.own
    requires multiset(db'.TagRows(p.tag, kind)) == multiset(SharedAll(items, p.lineS))
    requires forall k :: 0 <= k < |items| ==>
               && (f.blob, items[k].key) in db'.resolve
               && db'.resolve[(f.blob, items[k].key)] == (f.names.row(items[k].item.Pair().0), f.names.row(items[k].item.Pair().1))
    ensures multiset(SharedView(db', Bridge(f.blob, p.tag, p.lineS), kind)) == multiset(LooseRows(f.names, f.blob, LooseKeyed(p.tag, items)))
  {
    var b := Bridge(f.blob, p.tag, p.lineS);
    ExpandShared(f, db'.resolve, p, items);
    ExpandPermuted(db'.resolve, b, db'.TagRows(p.tag, kind), SharedAll(items, p.lineS));
  }

  lemma {:induction false} OwnAfter(db: Db, f: File, plans: seq<Planned>, conflicts: set<int>, i: int, kind: Kind)
    requires Admissible(db, f) && PlansFor(f, plans) && 0 <= i < |plans|
    ensures (f.blob, plans[i].p.tag, kind) in db.own + OwnMarks(f.blob, f.prior, conflicts, plans) <==>
            KeepsOwn(f.prior, conflicts, plans[i], kind) && HasSharedRows(f.prior, plans[i], kind)
  {
    OwnMarksAre(f.blob, f.prior, conflicts, plans, f.blob, plans[i].p.tag, kind);
    assert forall j :: 0 <= j < |plans| && plans[j].p.tag == plans[i].p.tag ==> j == i;
  }

  /** The plans a file's rows are written from: its placements in order, their candidate items under some keys, and
      the keys with two meanings set aside. */
  ghost predicate Sorted(h: Digests, f: File, plans: seq<Planned>, conflicts: set<int>) {
    && PlansFor(f, plans)
    && (forall i, kind :: 0 <= i < |plans| ==>
          LooseKeyed(plans[i].p.tag, plans[i].Items(kind)) == LooseKeyed(plans[i].p.tag, PlanOf(h, f.shared, plans[i].p).Items(kind)))
    && (forall key :: key !in conflicts ==> !Clashes(f.names, Entries(plans), key))
  }

  lemma {:induction false} FinalSorted(h: Digests, f: File)
    ensures Sorted(h, f, FinalPlans(h, f), Conflicts(h, f))
  {
    FinalPlansFor(h, f);
    var plans := FinalPlans(h, f);
    forall i, kind | 0 <= i < |plans|
      ensures LooseKeyed(plans[i].p.tag, plans[i].Items(kind)) == LooseKeyed(plans[i].p.tag, PlanOf(h, f.shared, plans[i].p).Items(kind))
    {
      FinalLoose(h, f, i, kind);
    }
    forall key | key !in Conflicts(h, f) ensures !Clashes(f.names, Entries(plans), key) {
      ConflictFree(h, f, key);
    }
  }

  /** Every key a shared item uses resolves, in this blob, to that item's own target. */
  lemma {:induction false} SharedResolves(h: Digests, db: Db, f: File, plans: seq<Planned>, conflicts: set<int>, i: int, kind: Kind)
    requires Admissible(db, f) && Sorted(h, f, plans, conflicts) && 0 <= i < |plans|
    requires !KeepsOwn(f.prior, conflicts, plans[i], kind)
    ensures var items := plans[i].Items(kind);
            var resolve := Written(h, db, f, plans, conflicts).resolve;
            forall k :: 0 <= k < |items| ==>
              && (f.blob, items[k].key) in resolve
              && resolve[(f.blob, items[k].key)] == (f.names.row(items[k].item.Pair().0), f.names.row(items[k].item.Pair().1))
  {
    var items, resolve := plans[i].Items(kind), Written(h, db, f, plans, conflicts).resolve;
    forall k | 0 <= k < |items|
      ensures (f.blob, items[k].key) in resolve
      ensures resolve[(f.blob, items[k].key)] == (f.names.row(items[k].item.Pair().0), f.names.row(items[k].item.Pair().1))
    {
      assert items[k].key !in conflicts;
      var e := EntriesContain(plans, i, kind, k);
      NoClashResolves(f.names, Entries(plans), e);
      MappedKeysAre(f.prior, conflicts, plans, i, kind, k);
      ResolveAfterAt(db.resolve, f, FirstTargets(Entries(plans)), MappedKeys(f.prior, conflicts, plans), items[k].key);
    }
  }

  lemma {:induction false} SharedPlacement(h: Digests, db: Db, f: File, plans: seq<Planned>, conflicts: set<int>, i: int, kind: Kind)
    requires Admissible(db, f) && Sorted(h, f, plans, conflicts) && 0 <= i < |plans|
    requires !KeepsOwn(f.prior, conflicts, plans[i], kind)
    ensures multiset(SharedView(Written(h, db, f, plans, conflicts), Bridge(f.blob, plans[i].p.tag, plans[i].p.lineS), kind))
         == multiset(LooseRows(f.names, f.blob, LooseKeyed(plans[i].p.tag, plans[i].Items(kind))))
  {
    OwnAfter(db, f, plans, conflicts, i, kind);
    SharedResolves(h, db, f, plans, conflicts, i, kind);
    TagShows(db, f, plans, conflicts, i, kind);
    SharedShows(f, Written(h, db, f, plans, conflicts), plans[i].p, plans[i].Items(kind), kind);
  }

  lemma {:induction false} OwnPlacement(h: Digests, db: Db, f: File, plans: seq<Planned>, conflicts: set<int>, i: int, kind: Kind)
    requires Admissible(db, f) && PlansFor(f, plans) && 0 <= i < |plans|
    requires KeepsOwn(f.prior, conflicts, plans[i], kind)
    ensures SharedView(Written(h, db, f, plans, conflicts), Bridge(f.blob, plans[i].p.tag, plans[i].p.lineS), kind) == []
  {
    hide KeepsOwn, HasSharedRows, Admissible, PlansFor;
    OwnAfter(db, f, plans, conflicts, i, kind);
    if !HasSharedRows(f.prior, plans[i], kind) {
      NothingStored(db, f, plans, i, kind);
    }
  }

  /** What the i-th placement shows through its tag, plus the items it keeps, are the items it plans to share. */
  lemma {:induction false} PlacementShows(h: Digests, db: Db, f: File, plans: seq<Planned>, conflicts: set<int>, i: int, kind: Kind)
    requires Admissible(db, f) && Sorted(h, f, plans, conflicts) && 0 <= i < |plans|
    ensures multiset(SharedView(Written(h, db, f, plans, conflicts), Bridge(f.blob, plans[i].p.tag, plans[i].p.lineS), kind))
            + multiset(LooseRows(f.names, f.blob, KeptBy(f.prior, conflicts, plans[i], kind)))
            == multiset(LooseRows(f.names, f.blob, LooseKeyed(plans[i].p.tag, plans[i].Items(kind))))
  {
    if KeepsOwn(f.prior, conflicts, plans[i], kind) {
      OwnPlacement(h, db, f, plans, conflicts, i, kind);
    } else {
      SharedPlacement(h, db, f, plans, conflicts, i, kind);
    }
  }

  lemma {:induction false} ResolveAfterAt(resolve: map<(int, int), (int, int)>, f: File, first: map<int, (Target, Target)>, mapped: set<int>, key: int)
    requires key in mapped && key in first
    ensures (f.blob, key) in ResolveAfter(resolve, f, first, mapped)
    ensures ResolveAfter(resolve, f, first, mapped)[(f.blob, key)] == (f.names.row(first[key].0), f.names.row(first[key].1))
  {
  }

  lemma {:induction false} AddPlacement<T>(shown: multiset<T>, spilled: multiset<T>, kept: multiset<T>, all: multiset<T>,
                        shown1: multiset<T>, spilled1: multiset<T>, kept1: multiset<T>, planned1: multiset<T>, all1: multiset<T>)
    requires shown + spilled + kept == all
    requires shown1 + kept1 == planned1 && planned1 + spilled1 == all1
    ensures (shown + shown1) + (spilled + spilled1) + (kept + kept1) == all + all1
  {
  }

  /** A file's own placements show its recorded items, once its per-blob rows are added. */
  lemma {:induction false} PlacementsShow(h: Digests, db: Db, f: File, plans: seq<Planned>, conflicts: set<int>, n: nat, kind: Kind)
    requires Admissible(db, f) && Sorted(h, f, plans, conflicts) && n <= |plans|
    ensures multiset(SharedViews(Written(h, db, f, plans, conflicts), Bridges(f.blob, f.placements)[..n], kind))
          + multiset(LooseRows(f.names, f.blob, SpilledAll(h, f.shared, f.placements[..n], kind)))
          + multiset(LooseRows(f.names, f.blob, Kept(f.prior, conflicts, plans[..n], kind)))
         == multiset(PlacedRows(f.names, f.blob, f.placements[..n], kind))
  {
    if n > 0 {
      var i := n - 1;
      PlacementsShow(h, db, f, plans, conflicts, i, kind);
      PlacementShows(h, db, f, plans, conflicts, i, kind);
      SpillRows(h, f, f.placements[i], kind);
      var db', bs, b := Written(h, db, f, plans, conflicts), Bridges(f.blob, f.placements), Bridge(f.blob, plans[i].p.tag, plans[i].p.lineS);
      var shown, shown1 := SharedViews(db', bs[..i], kind), SharedView(db', b, kind);
      var spilled, spilled1 := SpilledAll(h, f.shared, f.placements[..i], kind), Spilled(h, f.shared, f.placements[i], kind);
      var kept, kept1 := Kept(f.prior, conflicts, plans[..i], kind), KeptBy(f.prior, conflicts, plans[i], kind);
      var all, all1 := PlacedRows(f.names, f.blob, f.placements[..i], kind),
                       ItemRows(f.names, f.blob, f.placements[i].tag, f.placements[i].Items(kind));
      AddPlacement(multiset(shown), multiset(LooseRows(f.names, f.blob, spilled)), multiset(LooseRows(f.names, f.blob, kept)), multiset(all),
                   multiset(shown1), multiset(LooseRows(f.names, f.blob, spilled1)), multiset(LooseRows(f.names, f.blob, kept1)),
                   multiset(LooseRows(f.names, f.blob, LooseKeyed(plans[i].p.tag, plans[i].Items(kind)))), multiset(all1));
      LooseConcat(f.names, f.blob, spilled, spilled1);
      LooseConcat(f.names, f.blob, kept, kept1);
      ViewsPrefix(db', bs, n, kind);
      SpilledPrefix(h, f.shared, f.placements, n, kind);
      KeptPrefix(f.prior, conflicts, plans, n, kind);
      PlacedPrefix(f.names, f.blob, f.placements, n, kind);
    }
  }

  lemma {:induction false} ViewsPrefix(db: Db, bs: seq<Bridge>, n: nat, kind: Kind)
    requires 0 < n <= |bs|
    ensures SharedViews(db, bs[..n], kind) == SharedViews(db, bs[..n-1], kind) + SharedView(db, bs[n-1], kind)
  {
    assert bs[..n][..n-1] == bs[..n-1];
  }

  lemma {:induction false} SpilledPrefix(h: Digests, shared: bool, ps: seq<Placement>, n: nat, kind: Kind)
    requires 0 < n <= |ps|
    ensures SpilledAll(h, shared, ps[..n], kind) == SpilledAll(h, shared, ps[..n-1], kind) + Spilled(h, shared, ps[n-1], kind)
  {
    assert ps[..n][..n-1] == ps[..n-1];
  }

  lemma {:induction false} KeptPrefix(prior: map<int, Stored>, conflicts: set<int>, plans: seq<Planned>, n: nat, kind: Kind)
    requires 0 < n <= |plans|
    ensures Kept(prior, conflicts, plans[..n], kind) == Kept(prior, conflicts, plans[..n-1], kind) + KeptBy(prior, conflicts, plans[n-1], kind)
  {
    assert plans[..n][..n-1] == plans[..n-1];
  }

  lemma {:induction false} PlacedPrefix(names: Names, blob: int, ps: seq<Placement>, n: nat, kind: Kind)
    requires 0 < n <= |ps|
    ensures PlacedRows(names, blob, ps[..n], kind) == PlacedRows(names, blob, ps[..n-1], kind) + ItemRows(names, blob, ps[n-1].tag, ps[n-1].Items(kind))
  {
    assert ps[..n][..n-1] == ps[..n-1];
  }

  lemma {:induction false} EarlierTag(h: Digests, db: Db, f: File, plans: seq<Planned>, conflicts: set<int>, i: int, kind: Kind)
    requires Admissible(db, f) && PlansFor(f, plans) && 0 <= i < |db.bridge|
    ensures Written(h, db, f, plans, conflicts).TagRows(db.bridge[i].tag, kind) == db.TagRows(db.bridge[i].tag, kind)
  {
    forall j | 0 <= j < |plans| && plans[j].p.tag == db.bridge[i].tag ensures plans[j].p.recycled {
      assert TagAdmissible(db, f, f.placements[j]);
    }
    TagRowsKept(db.tagRows, plans, db.bridge[i].tag, kind);
  }

  lemma {:induction false} EarlierOwn(h: Digests, db: Db, f: File, plans: seq<Planned>, conflicts: set<int>, b: Bridge, kind: Kind)
    requires b.blob != f.blob
    ensures (b.blob, b.tag, kind) in db.own <==> (b.blob, b.tag, kind) in Written(h, db, f, plans, conflicts).own
  {
    OwnMarksAre(f.blob, f.prior, conflicts, plans, b.blob, b.tag, kind);
  }

  lemma {:induction false} EarlierResolve(h: Digests, db: Db, f: File, plans: seq<Planned>, conflicts: set<int>, b: Bridge, key: int)
    requires b.blob != f.blob
    ensures (b.blob, key) in db.resolve <==> (b.blob, key) in Written(h, db, f, plans, conflicts).resolve
    ensures (b.blob, key) in db.resolve ==> db.resolve[(b.blob, key)] == Written(h, db, f, plans, conflicts).resolve[(b.blob, key)]
  {
  }

  /** A placement that was there before shows the same rows afterwards. */
  lemma {:induction false} EarlierUntouched(h: Digests, db: Db, f: File, plans: seq<Planned>, conflicts: set<int>, i: int, kind: Kind)
    requires Admissible(db, f) && PlansFor(f, plans) && 0 <= i < |db.bridge|
    ensures AgreeOn(db, Written(h, db, f, plans, conflicts), db.bridge[i], kind)
  {
    var b := db.bridge[i];
    assert b.blob != f.blob;
    EarlierTag(h, db, f, plans, conflicts, i, kind);
    EarlierOwn(h, db, f, plans, conflicts, b, kind);
    forall key
      ensures (b.blob, key) in db.resolve <==> (b.blob, key) in Written(h, db, f, plans, conflicts).resolve
      ensures (b.blob, key) in db.resolve ==> db.resolve[(b.blob, key)] == Written(h, db, f, plans, conflicts).resolve[(b.blob, key)]
    {
      EarlierResolve(h, db, f, plans, conflicts, b, key);
    }
  }

  lemma {:induction false} EarlierViews(h: Digests, db: Db, f: File, plans: seq<Planned>, conflicts: set<int>, kind: Kind)
    requires Admissible(db, f) && PlansFor(f, plans)
    ensures SharedViews(Written(h, db, f, plans, conflicts), db.bridge, kind) == SharedViews(db, db.bridge, kind)
  {
    forall i | 0 <= i < |db.bridge| ensures AgreeOn(db, Written(h, db, f, plans, conflicts), db.bridge[i], kind) {
      EarlierUntouched(h, db, f, plans, conflicts, i, kind);
    }
    SharedViewsFrame(db, Written(h, db, f, plans, conflicts), db.bridge, kind);
  }

  lemma {:induction false} BlobItemRows(h: Digests, f: File, plans: seq<Planned>, conflicts: set<int>, kind: Kind)
    ensures LooseRows(f.names, f.blob, BlobItems(h, f, plans, conflicts, kind))
         == LooseRows(f.names, f.blob, f.LooseOf(kind))
            + LooseRows(f.names, f.blob, SpilledAll(h, f.shared, f.placements, kind))
            + LooseRows(f.names, f.blob, Kept(f.prior, conflicts, plans, kind))
  {
    var spilled, kept := SpilledAll(h, f.shared, f.placements, kind), Kept(f.prior, conflicts, plans, kind);
    LooseConcat(f.names, f.blob, f.LooseOf(kind) + spilled, kept);
    LooseConcat(f.names, f.blob, f.LooseOf(kind), spilled);
  }

  lemma {:induction false} AddFile<T>(perBlob: seq<T>, loose: seq<T>, spilled: seq<T>, kept: seq<T>, earlier: seq<T>, shown: seq<T>, all: seq<T>)
    requires multiset(shown) + multiset(spilled) + multiset(kept) == multiset(all)
    ensures multiset(perBlob + (loose + spilled + kept) + (earlier + shown))
         == multiset(perBlob + earlier) + (multiset(loose) + multiset(all))
  {
  }

  lemma {:induction false} AllPlacementsShow(h: Digests, db: Db, f: File, plans: seq<Planned>, conflicts: set<int>, kind: Kind)
    requires Admissible(db, f) && Sorted(h, f, plans, conflicts)
    ensures multiset(SharedViews(Written(h, db, f, plans, conflicts), Bridges(f.blob, f.placements), kind))
          + multiset(LooseRows(f.names, f.blob, SpilledAll(h, f.shared, f.placements, kind)))
          + multiset(LooseRows(f.names, f.blob, Kept(f.prior, conflicts, plans, kind)))
         == multiset(PlacedRows(f.names, f.blob, f.placements, kind))
  {
    assert PlansFor(f, plans);
    var bs, n := Bridges(f.blob, f.placements), |plans|;
    assert n == |bs| == |f.placements|;
    hide *;
    PlacementsShow(h, db, f, plans, conflicts, n, kind);
    Whole(bs, n);
    Whole(f.placements, n);
    Whole(plans, n);
  }

  lemma {:induction false} Whole<T>(s: seq<T>, n: nat)
    requires n == |s|
    ensures s[..n] == s
  {
  }

  lemma {:induction false} WrittenParts(h: Digests, db: Db, f: File, plans: seq<Planned>, conflicts: set<int>, kind: Kind)
    requires Admissible(db, f) && PlansFor(f, plans)
    ensures View(Written(h, db, f, plans, conflicts), kind)
         == db.PerBlob(kind)
            + (LooseRows(f.names, f.blob, f.LooseOf(kind))
               + LooseRows(f.names, f.blob, SpilledAll(h, f.shared, f.placements, kind))
               + LooseRows(f.names, f.blob, Kept(f.prior, conflicts, plans, kind)))
            + (SharedViews(db, db.bridge, kind) + SharedViews(Written(h, db, f, plans, conflicts), Bridges(f.blob, f.placements), kind))
  {
    hide Admissible, PlansFor, SharedViews, LooseRows;
    EarlierViews(h, db, f, plans, conflicts, kind);
    SharedViewsConcat(Written(h, db, f, plans, conflicts), db.bridge, Bridges(f.blob, f.placements), kind);
    BlobItemRows(h, f, plans, conflicts, kind);
  }

  lemma {:induction false} WrittenShows(h: Digests, db: Db, f: File, plans: seq<Planned>, conflicts: set<int>, kind: Kind)
    requires Admissible(db, f) && Sorted(h, f, plans, conflicts)
    ensures multiset(View(Written(h, db, f, plans, conflicts), kind)) == multiset(View(db, kind)) + Recorded(f, kind)
  {
    assert PlansFor(f, plans);
    hide Admissible, Sorted, PlansFor, SharedViews, LooseRows, Written;
    WrittenParts(h, db, f, plans, conflicts, kind);
    AllPlacementsShow(h, db, f, plans, conflicts, kind);
    AddFile(db.PerBlob(kind), LooseRows(f.names, f.blob, f.LooseOf(kind)),
            LooseRows(f.names, f.blob, SpilledAll(h, f.shared, f.placements, kind)),
            LooseRows(f.names, f.blob, Kept(f.prior, conflicts, plans, kind)),
            SharedViews(db, db.bridge, kind), SharedViews(Written(h, db, f, plans, conflicts), Bridges(f.blob, f.placements), kind),
            PlacedRows(f.names, f.blob, f.placements, kind));
  }

  /** One file: the views gain exactly its recorded items and nothing else changes. */
  lemma {:induction false} FinishAddsRecorded(h: Digests, db: Db, f: File, kind: Kind)
    requires Admissible(db, f)
    ensures multiset(View(Finished(h, db, f), kind)) == multiset(View(db, kind)) + Recorded(f, kind)
  {
    FinalSorted(h, f);
    WrittenShows(h, db, f, FinalPlans(h, f), Conflicts(h, f), kind);
  }

  // ---------------------------------------------------------------- every history

  ghost function Run(h: Digests, files: seq<File>): Db {
    if files == [] then EMPTY_DB else Finished(h, Run(h, files[..|files|-1]), files[|files|-1])
  }

  ghost predicate AdmissibleRun(h: Digests, files: seq<File>) {
    forall i :: 0 <= i < |files| ==> Admissible(Run(h, files[..i]), files[i])
  }

  ghost function RecordedBy(files: seq<File>, kind: Kind): multiset<ViewRow> {
    if files == [] then multiset{} else RecordedBy(files[..|files|-1], kind) + Recorded(files[|files|-1], kind)
  }

  /** After any history of files, with new and reused tags and either layout chosen per file, a view holds one row
      for every item ever recorded, with the target it had in its own file, and no other row. */
  lemma {:induction false} ViewIsRecorded(h: Digests, files: seq<File>, kind: Kind)
    requires AdmissibleRun(h, files)
    ensures multiset(View(Run(h, files), kind)) == RecordedBy(files, kind)
  {
    hide Finished, Admissible, Recorded;
    if files != [] {
      var front := files[..|files|-1];
      forall i | 0 <= i < |front| ensures Admissible(Run(h, front[..i]), front[i]) {
        assert front[..i] == files[..i];
      }
      ViewIsRecorded(h, front, kind);
      assert files[..|files|-1] == front;
      FinishAddsRecorded(h, Run(h, front), files[|files|-1], kind);
    }
  }
}
