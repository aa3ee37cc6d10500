/** The keys of core/SymbolRows.py: what they distinguish, and when a key is left with two meanings after its items were told
    apart by their position. */
module SymbolKeys {
  import opened Basics
  import opened SymbolModel
  import opened SymbolFinish

  /** Digests without collisions. */
  ghost predicate CollisionFree(h: Digests) {
    (forall x, y :: h.key(x) == h.key(y) ==> x == y) && forall s, t :: h.digest(s) == h.digest(t) ==> s == t
  }

  /** The identifier at a reference. */
  function TokenAt(h: Digests, p: Placement, it: Item): string
    requires it.RefItem?
  {
    h.token(p.code, p.charS, it.line - p.lineS, it.charS)
  }

  /** The same text, and in it the same identifier in the same role, or a definition of the same name and type. */
  predicate SameUse(h: Digests, p: Placement, a: Item, q: Placement, b: Item) {
    && p.code == q.code
    && if a.RefItem? then b.RefItem? && a.role == b.role && TokenAt(h, p, a) == TokenAt(h, q, b)
       else b.DefItem? && a.name == b.name && a.typeId == b.typeId
  }

  /** The same place in the tag. */
  predicate SamePlace(p: Placement, a: Item, q: Placement, b: Item) {
    if a.RefItem? then b.RefItem? && a.line - p.lineS == b.line - q.lineS && a.charS == b.charS
    else b.DefItem? && a.lineS - p.lineS == b.lineS - q.lineS && a.lineE - p.lineS == b.lineE - q.lineS
  }

  /** Two items share a key exactly when they are the same use in the same text. */
  lemma {:induction false} KeysTellApart(h: Digests, p: Placement, a: Item, q: Placement, b: Item)
    requires CollisionFree(h)
    ensures KeyOf(h, p, a) == KeyOf(h, q, b) <==> SameUse(h, p, a, q, b)
  {
  }

  /** Refined keys also tell places apart; a refined key is no item's plain key. */
  lemma {:induction false} RefinedTellApart(h: Digests, p: Placement, a: Item, q: Placement, b: Item)
    requires CollisionFree(h)
    ensures RefinedKey(h, p, Keyed(KeyOf(h, p, a), a)) == RefinedKey(h, q, Keyed(KeyOf(h, q, b), b)) <==>
            SameUse(h, p, a, q, b) && SamePlace(p, a, q, b)
    ensures RefinedKey(h, p, Keyed(KeyOf(h, p, a), a)) != KeyOf(h, q, b)
  {
  }

  lemma {:induction false} KeyedUnderKeys(h: Digests, shared: bool, p: Placement, items: seq<Item>)
    ensures forall k :: 0 <= k < |KeyedItems(h, shared, p, items)| ==>
              KeyedItems(h, shared, p, items)[k].key == KeyOf(h, p, KeyedItems(h, shared, p, items)[k].item)
  {
    hide KeyOf;
    if items != [] {
      KeyedUnderKeys(h, shared, p, items[..|items|-1]);
    }
  }

  /** Where an entry comes from. */
  lemma {:induction false} EntryFrom(plans: seq<Planned>, e: nat) returns (i: nat, kind: Kind, k: nat)
    requires e < |Entries(plans)|
    ensures i < |plans| && k < |plans[i].Items(kind)| && plans[i].Items(kind)[k] == Entries(plans)[e]
  {
    var front, last := Entries(plans[..|plans|-1]), plans[|plans|-1];
    if e < |front| {
      i, kind, k := EntryFrom(plans[..|plans|-1], e);
    } else if e < |front| + |last.refs| {
      i, kind, k := |plans| - 1, Refs, e - |front|;
    } else {
      i, kind, k := |plans| - 1, Defs, e - |front| - |last.refs|;
    }
  }

  lemma {:induction false} RefinedItem(h: Digests, ambiguous: set<int>, p: Placement, items: seq<Keyed>, k: nat)
    requires k < |items|
    ensures RefineItems(h, ambiguous, p, items)[k]
         == if items[k].key in ambiguous then Keyed(RefinedKey(h, p, items[k]), items[k].item) else items[k]
  {
    hide RefinedKey;
    if k < |items| - 1 {
      RefinedItem(h, ambiguous, p, items[..|items|-1], k);
    }
  }

  /** A planned item under its plain key. */
  predicate PlannedItem(h: Digests, f: File, i: nat, kind: Kind, k: nat) {
    i < |f.placements| && k < |PlanOf(h, f.shared, f.placements[i]).Items(kind)|
  }

  function ItemAt(h: Digests, f: File, i: nat, kind: Kind, k: nat): Item
    requires PlannedItem(h, f, i, kind, k)
  {
    PlanOf(h, f.shared, f.placements[i]).Items(kind)[k].item
  }

  ghost function Ambiguous(h: Digests, f: File): set<int> {
    ClashingKeys(f.names, Entries(Plans(h, f.shared, f.placements)))
  }

  /** A planned item's final key: its plain key, refined if that one is ambiguous. */
  ghost predicate FinalKey(h: Digests, f: File, i: nat, k: Keyed)
    requires i < |f.placements|
  {
    var key := KeyOf(h, f.placements[i], k.item);
    k.key == if key in Ambiguous(h, f) then RefinedKey(h, f.placements[i], Keyed(key, k.item)) else key
  }

  /** Plans hold items under their plain keys. */
  lemma {:induction false} PlanKeys(h: Digests, shared: bool, p: Placement, kind: Kind, k: nat)
    requires k < |PlanOf(h, shared, p).Items(kind)|
    ensures PlanOf(h, shared, p).Items(kind)[k].key == KeyOf(h, p, PlanOf(h, shared, p).Items(kind)[k].item)
  {
    KeyedUnderKeys(h, shared, p, p.Items(kind));
    hide KeyedItems, KeyOf;
  }

  lemma {:induction false} PlanAt(h: Digests, f: File, i: nat)
    requires i < |f.placements|
    ensures |Plans(h, f.shared, f.placements)| == |f.placements| && Plans(h, f.shared, f.placements)[i] == PlanOf(h, f.shared, f.placements[i])
  {
    hide PlanOf, Plans;
  }

  lemma {:induction false} RefinedPlan(h: Digests, f: File, i: nat, kind: Kind)
    requires Ambiguous(h, f) != {} && i < |f.placements|
    ensures |FinalPlans(h, f)| == |f.placements|
    ensures FinalPlans(h, f)[i].Items(kind) == RefineItems(h, Ambiguous(h, f), f.placements[i], PlanOf(h, f.shared, f.placements[i]).Items(kind))
  {
    hide PlanOf, Entries, ClashingKeys, RefineItems;
    PlanPlaced(h, f.shared, f.placements[i]);
  }

  lemma {:induction false} PlanPlaced(h: Digests, shared: bool, p: Placement)
    ensures PlanOf(h, shared, p).p == p
  {
    hide KeyedItems;
  }

  lemma {:induction false} FinalKeys(h: Digests, f: File, i: nat, kind: Kind, k: nat)
    requires Ambiguous(h, f) != {} && i < |f.placements| == |FinalPlans(h, f)| && k < |FinalPlans(h, f)[i].Items(kind)|
    ensures FinalKey(h, f, i, FinalPlans(h, f)[i].Items(kind)[k])
    ensures KeyOf(h, f.placements[i], FinalPlans(h, f)[i].Items(kind)[k].item) !in Ambiguous(h, f) ==>
              exists e :: 0 <= e < |Entries(Plans(h, f.shared, f.placements))|
                          && Entries(Plans(h, f.shared, f.placements))[e] == FinalPlans(h, f)[i].Items(kind)[k]
  {
    hide KeyedItems, PlanOf, Plans, Entries, Ambiguous, RefinedKey, KeyOf, FinalPlans, RefineItems;
    var p, plans := f.placements[i], Plans(h, f.shared, f.placements);
    var items := PlanOf(h, f.shared, p).Items(kind);
    RefinedPlan(h, f, i, kind);
    PlanKeys(h, f.shared, p, kind, k);
    PlanAt(h, f, i);
    RefinedItem(h, Ambiguous(h, f), p, items, k);
    var e := EntriesContain(plans, i, kind, k);
  }

  /** Two items of the file under one final key, with targets that are not known to be the same. */
  ghost predicate TwoMeanings(h: Digests, f: File, key: int, i: nat, a: Keyed, j: nat, b: Keyed) {
    && i < |f.placements| && j < |f.placements|
    && a.key == key == b.key && Print(f.names, a.item) != Print(f.names, b.item)
    && FinalKey(h, f, i, a) && FinalKey(h, f, j, b)
  }

  /** An entry of the final plans: whose item it is, and the entry it was before keys were refined. */
  lemma {:induction false} FinalEntry(h: Digests, f: File, e: nat) returns (i: nat, kind: Kind, k: nat)
    requires Ambiguous(h, f) != {} && e < |Entries(FinalPlans(h, f))|
    ensures PlannedItem(h, f, i, kind, k) && Entries(FinalPlans(h, f))[e].item == ItemAt(h, f, i, kind, k)
    ensures var x := Entries(FinalPlans(h, f))[e];
            && FinalKey(h, f, i, x)
            && (KeyOf(h, f.placements[i], x.item) !in Ambiguous(h, f) ==> x in Entries(Plans(h, f.shared, f.placements)))
  {
    FinalPlansFor(h, f);
    hide FinalPlans, Plans, Entries, Ambiguous, FinalKey, KeyOf;
    i, kind, k := EntryFrom(FinalPlans(h, f), e);
    FinalItem(h, f, i, kind, k);
    FinalKeys(h, f, i, kind, k);
  }

  lemma {:induction false} FinalItem(h: Digests, f: File, i: nat, kind: Kind, k: nat)
    requires i < |f.placements| == |FinalPlans(h, f)| && k < |FinalPlans(h, f)[i].Items(kind)|
    ensures PlannedItem(h, f, i, kind, k) && ItemAt(h, f, i, kind, k) == FinalPlans(h, f)[i].Items(kind)[k].item
  {
    hide PlanOf, ClashingKeys, Entries;
  }

  lemma {:induction false} EntriesClash(names: Names, entries: seq<Keyed>, a: Keyed, b: Keyed)
    requires a in entries && b in entries && a.key == b.key && Print(names, a.item) != Print(names, b.item)
    ensures a.key in ClashingKeys(names, entries)
  {
    var x :| 0 <= x < |entries| && entries[x] == a;
    var y :| 0 <= y < |entries| && entries[y] == b;
    assert Clashes(names, entries, entries[x].key);
  }

  /** Two plain keys that clash would have been ambiguous. */
  lemma {:induction false} NotBothPlain(h: Digests, f: File, key: int, i: nat, a: Keyed, j: nat, b: Keyed)
    requires TwoMeanings(h, f, key, i, a, j, b)
    requires KeyOf(h, f.placements[i], a.item) !in Ambiguous(h, f) ==> a in Entries(Plans(h, f.shared, f.placements))
    requires KeyOf(h, f.placements[j], b.item) !in Ambiguous(h, f) ==> b in Entries(Plans(h, f.shared, f.placements))
    ensures KeyOf(h, f.placements[i], a.item) in Ambiguous(h, f) || KeyOf(h, f.placements[j], b.item) in Ambiguous(h, f)
  {
    hide KeyOf, RefinedKey, Plans, Entries, ClashingKeys;
    var entries := Entries(Plans(h, f.shared, f.placements));
    if a in entries && b in entries {
      EntriesClash(f.names, entries, a, b);
    }
  }

  lemma {:induction false} ConflictEntries(h: Digests, f: File, key: int)
    requires key in Conflicts(h, f)
    ensures Ambiguous(h, f) != {} && Clashes(f.names, Entries(FinalPlans(h, f)), key)
  {
    hide FinalPlans, Entries, Plans;
  }

  /** Two planned items: the same use at the same place of the same text, with targets that are not known to be the same. */
  ghost predicate Twice(h: Digests, f: File, i: nat, kind: Kind, k: nat, j: nat, other: Kind, m: nat) {
    && PlannedItem(h, f, i, kind, k) && PlannedItem(h, f, j, other, m)
    && SameUse(h, f.placements[i], ItemAt(h, f, i, kind, k), f.placements[j], ItemAt(h, f, j, other, m))
    && SamePlace(f.placements[i], ItemAt(h, f, i, kind, k), f.placements[j], ItemAt(h, f, j, other, m))
    && Print(f.names, ItemAt(h, f, i, kind, k)) != Print(f.names, ItemAt(h, f, j, other, m))
  }

  lemma {:induction false} ConflictIsTwice(h: Digests, f: File, key: int)
    requires CollisionFree(h) && key in Conflicts(h, f)
    ensures exists i, kind, k, j, other, m :: Twice(h, f, i, kind, k, j, other, m)
  {
    hide FinalPlans, Plans, Entries, Conflicts, Ambiguous, KeyOf, RefinedKey, Print, SameUse, SamePlace, CollisionFree;
    ConflictEntries(h, f, key);
    var entries := Entries(FinalPlans(h, f));
    var x: nat, y: nat :| x < |entries| && y < |entries| && entries[x].key == key == entries[y].key
                          && Print(f.names, entries[x].item) != Print(f.names, entries[y].item);
    var i, kind, k := FinalEntry(h, f, x);
    var j, other, m := FinalEntry(h, f, y);
    var a, b := entries[x], entries[y];
    NotBothPlain(h, f, key, i, a, j, b);
    RefinedTellApart(h, f.placements[i], a.item, f.placements[j], b.item);
    RefinedTellApart(h, f.placements[j], b.item, f.placements[i], a.item);
    assert Twice(h, f, i, kind, k, j, other, m);
  }

  lemma {:induction false} PlainEntry(h: Digests, f: File, i: nat, kind: Kind, k: nat)
    requires PlannedItem(h, f, i, kind, k)
    ensures var it := ItemAt(h, f, i, kind, k); Keyed(KeyOf(h, f.placements[i], it), it) in Entries(Plans(h, f.shared, f.placements))
  {
    hide PlanOf, Plans, Entries, KeyOf;
    var plans := Plans(h, f.shared, f.placements);
    PlanKeys(h, f.shared, f.placements[i], kind, k);
    PlanAt(h, f, i);
    var e := EntriesContain(plans, i, kind, k);
  }

  lemma {:induction false} RefinedEntry(h: Digests, f: File, i: nat, kind: Kind, k: nat)
    requires PlannedItem(h, f, i, kind, k) && KeyOf(h, f.placements[i], ItemAt(h, f, i, kind, k)) in Ambiguous(h, f)
    ensures var it := ItemAt(h, f, i, kind, k);
            Keyed(RefinedKey(h, f.placements[i], Keyed(KeyOf(h, f.placements[i], it), it)), it) in Entries(FinalPlans(h, f))
  {
    hide PlanOf, Plans, Entries, KeyOf, RefinedKey, FinalPlans, Ambiguous, RefineItems;
    var p := f.placements[i];
    var items := PlanOf(h, f.shared, p).Items(kind);
    PlanKeys(h, f.shared, p, kind, k);
    RefinedPlan(h, f, i, kind);
    RefinedItem(h, Ambiguous(h, f), p, items, k);
    var e := EntriesContain(FinalPlans(h, f), i, kind, k);
  }

  lemma {:induction false} TwiceIsConflict(h: Digests, f: File, i: nat, kind: Kind, k: nat, j: nat, other: Kind, m: nat)
    requires CollisionFree(h) && Twice(h, f, i, kind, k, j, other, m)
    ensures Conflicts(h, f) != {}
  {
    assert i < |f.placements| && j < |f.placements|;
    hide CollisionFree, PlannedItem, ItemAt, SameUse, SamePlace, KeyOf, RefinedKey, Entries, Plans, FinalPlans, ClashingKeys, Print;
    var p, q, a, b := f.placements[i], f.placements[j], ItemAt(h, f, i, kind, k), ItemAt(h, f, j, other, m);
    var key := KeyOf(h, p, a);
    KeysTellApart(h, p, a, q, b);
    PlainEntry(h, f, i, kind, k);
    PlainEntry(h, f, j, other, m);
    EntriesClash(f.names, Entries(Plans(h, f.shared, f.placements)), Keyed(key, a), Keyed(key, b));
    RefinedTellApart(h, p, a, q, b);
    RefinedEntry(h, f, i, kind, k);
    RefinedEntry(h, f, j, other, m);
    var refined := RefinedKey(h, p, Keyed(key, a));
    EntriesClash(f.names, Entries(FinalPlans(h, f)), Keyed(refined, a), Keyed(refined, b));
    assert refined in Conflicts(h, f);
  }

  /** A file has a key with two meanings left exactly if it has one text placed twice, or one place of a text recorded twice, with
      two targets there. */
  lemma {:induction false} ConflictsIffTwice(h: Digests, f: File)
    requires CollisionFree(h)
    ensures Conflicts(h, f) != {} <==> exists i, kind, k, j, other, m :: Twice(h, f, i, kind, k, j, other, m)
  {
    hide CollisionFree, Conflicts, Twice;
    if Conflicts(h, f) != {} {
      var key := Member(Conflicts(h, f));
      ConflictIsTwice(h, f, key);
    }
    if i, kind, k, j, other, m :| Twice(h, f, i, kind, k, j, other, m) {
      TwiceIsConflict(h, f, i, kind, k, j, other, m);
    }
  }
}
