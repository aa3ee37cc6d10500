/** Why core/SymbolRows.py stores items by tag: a reused tag whose items are the stored ones is shared again, and a file that
    only moved writes no symbol row but the resolutions of its keys. */
module SymbolReuse {
  import opened SymbolModel
  import opened SymbolFinish

  // ---------------------------------------------------------------- one reused tag

  /** The placement's items, as rows relative to it, are the rows its tag has, in any order, and no key has two meanings. */
  ghost predicate SameAsStored(h: Digests, db: Db, f: File, i: nat, kind: Kind)
    requires i < |FinalPlans(h, f)| == |f.placements|
  {
    var items, p := FinalPlans(h, f)[i].Items(kind), f.placements[i];
    && multiset(seq(|items|, k requires 0 <= k < |items| => SharedOf(items[k].key, items[k].item, p.lineS))) == multiset(db.TagRows(p.tag, kind))
    && forall k :: 0 <= k < |items| ==> items[k].key !in Conflicts(h, f)
  }

  function OfTag(items: seq<Loose>, tag: int): seq<Loose> {
    if items == [] then []
    else OfTag(items[..|items|-1], tag) + if items[|items|-1].tag == tag then [items[|items|-1]] else []
  }

  lemma {:induction false} OfTagConcat(xs: seq<Loose>, ys: seq<Loose>, tag: int)
    ensures OfTag(xs + ys, tag) == OfTag(xs, tag) + OfTag(ys, tag)
  {
    if ys == [] {
      assert xs + ys == xs;
    } else {
      assert (xs + ys)[..|xs + ys|-1] == xs + ys[..|ys|-1];
      OfTagConcat(xs, ys[..|ys|-1], tag);
    }
  }

  lemma {:induction false} OneTag(items: seq<Loose>, of: int, tag: int)
    requires forall k :: 0 <= k < |items| ==> items[k].tag == of
    ensures OfTag(items, tag) == if of == tag then items else []
  {
    if items != [] {
      OneTag(items[..|items|-1], of, tag);
    }
  }

  lemma {:induction false} LooseTags(tag: int, items: seq<Keyed>)
    ensures forall k :: 0 <= k < |LooseKeyed(tag, items)| ==> LooseKeyed(tag, items)[k].tag == tag
  {
    if items != [] {
      LooseTags(tag, items[..|items|-1]);
    }
  }

  lemma {:induction false} OutsideTags(shared: bool, p: Placement, items: seq<Item>)
    ensures forall k :: 0 <= k < |OutsideItems(shared, p, items)| ==> OutsideItems(shared, p, items)[k].tag == p.tag
  {
    if items != [] {
      OutsideTags(shared, p, items[..|items|-1]);
    }
  }

  lemma {:induction false} SpilledTag(h: Digests, shared: bool, p: Placement, kind: Kind, tag: int)
    ensures OfTag(Spilled(h, shared, p, kind), tag) == if p.tag == tag then Spilled(h, shared, p, kind) else []
  {
    OutsideTags(shared, p, p.Items(kind));
    LooseTags(p.tag, KeyedItems(h, shared, p, p.Items(kind)));
    hide OfTag, LooseKeyed, OutsideItems, KeyedItems;
    OneTag(Spilled(h, shared, p, kind), p.tag, tag);
  }

  predicate OtherTags(ps: seq<Placement>, tag: int) {
    forall i :: 0 <= i < |ps| ==> ps[i].tag != tag
  }

  /** The spilled items of a tag are those of its placement. */
  lemma {:induction false} SpilledOf(h: Digests, shared: bool, ps: seq<Placement>, kind: Kind, tag: int)
    requires forall i, j :: 0 <= i < j < |ps| ==> ps[i].tag != ps[j].tag
    ensures OtherTags(ps, tag) ==> OfTag(SpilledAll(h, shared, ps, kind), tag) == []
    ensures forall i :: 0 <= i < |ps| && ps[i].tag == tag ==> OfTag(SpilledAll(h, shared, ps, kind), tag) == Spilled(h, shared, ps[i], kind)
  {
    hide Spilled, OfTag;
    if ps != [] {
      var front, last := ps[..|ps|-1], ps[|ps|-1];
      SpilledOf(h, shared, front, kind, tag);
      SpilledTag(h, shared, last, kind, tag);
      OfTagConcat(SpilledAll(h, shared, front, kind), Spilled(h, shared, last, kind), tag);
      if last.tag == tag {
        assert OtherTags(front, tag);
        assert [] + Spilled(h, shared, last, kind) == Spilled(h, shared, last, kind);
      } else {
        var spilled := OfTag(SpilledAll(h, shared, front, kind), tag);
        assert spilled + [] == spilled;
        forall i | 0 <= i < |ps| && ps[i].tag == tag ensures spilled == Spilled(h, shared, ps[i], kind) {
          assert front[i] == ps[i];
        }
      }
    } else {
      assert OfTag([], tag) == [] by {
        OneTag([], tag, tag);
      }
    }
  }

  lemma {:induction false} KeptTag(prior: map<int, Stored>, conflicts: set<int>, pl: Planned, kind: Kind, tag: int)
    ensures OfTag(KeptBy(prior, conflicts, pl, kind), tag) == if pl.p.tag == tag then KeptBy(prior, conflicts, pl, kind) else []
  {
    LooseTags(pl.p.tag, pl.Items(kind));
    hide OfTag, LooseKeyed, KeepsOwn;
    OneTag(KeptBy(prior, conflicts, pl, kind), pl.p.tag, tag);
  }

  predicate OtherPlans(plans: seq<Planned>, tag: int) {
    forall i :: 0 <= i < |plans| ==> plans[i].p.tag != tag
  }

  /** The kept items of a tag are those of its plan. */
  lemma {:induction false} KeptOf(prior: map<int, Stored>, conflicts: set<int>, plans: seq<Planned>, kind: Kind, tag: int)
    requires forall i, j :: 0 <= i < j < |plans| ==> plans[i].p.tag != plans[j].p.tag
    ensures OtherPlans(plans, tag) ==> OfTag(Kept(prior, conflicts, plans, kind), tag) == []
    ensures forall i :: 0 <= i < |plans| && plans[i].p.tag == tag ==>
              OfTag(Kept(prior, conflicts, plans, kind), tag) == KeptBy(prior, conflicts, plans[i], kind)
  {
    hide KeptBy, OfTag;
    if plans != [] {
      var front, last := plans[..|plans|-1], plans[|plans|-1];
      KeptOf(prior, conflicts, front, kind, tag);
      KeptTag(prior, conflicts, last, kind, tag);
      OfTagConcat(Kept(prior, conflicts, front, kind), KeptBy(prior, conflicts, last, kind), tag);
      if last.p.tag == tag {
        assert OtherPlans(front, tag);
        assert [] + KeptBy(prior, conflicts, last, kind) == KeptBy(prior, conflicts, last, kind);
      } else {
        var kept := OfTag(Kept(prior, conflicts, front, kind), tag);
        assert kept + [] == kept;
        forall i | 0 <= i < |plans| && plans[i].p.tag == tag ensures kept == KeptBy(prior, conflicts, plans[i], kind) {
          assert front[i] == plans[i];
        }
      }
    } else {
      assert OfTag([], tag) == [] by {
        OneTag([], tag, tag);
      }
    }
  }

  lemma {:induction false} KeepsUnlessSame(h: Digests, db: Db, f: File, i: nat, kind: Kind)
    requires Admissible(db, f) && i < |FinalPlans(h, f)| == |f.placements| && FinalPlans(h, f)[i].p == f.placements[i] && f.placements[i].recycled
    ensures KeepsOwn(f.prior, Conflicts(h, f), FinalPlans(h, f)[i], kind) <==> !SameAsStored(h, db, f, i, kind)
    ensures HasSharedRows(f.prior, FinalPlans(h, f)[i], kind) <==> db.TagRows(f.placements[i].tag, kind) != []
  {
    hide Admissible, FinalPlans, Conflicts, SharedAll;
    StoredPrior(db, f, i, kind);
    SharedAllRows(FinalPlans(h, f)[i].Items(kind), f.placements[i].lineS);
    if multiset(db.TagRows(f.placements[i].tag, kind)) == multiset{} {
      EmptyRows(db.TagRows(f.placements[i].tag, kind));
    }
  }

  lemma {:induction false} StoredPrior(db: Db, f: File, i: nat, kind: Kind)
    requires Admissible(db, f) && i < |f.placements| && f.placements[i].recycled
    ensures f.placements[i].tag in f.prior && f.prior[f.placements[i].tag].Of(kind) == multiset(db.TagRows(f.placements[i].tag, kind))
  {
    assert TagAdmissible(db, f, f.placements[i]);
  }

  /** What finishing a file writes for one kind of a reused tag: no tag row; an own mark exactly if the items are not the stored
      ones and there are stored ones to hide; and per blob the loose and spilled items, with the planned items exactly if they
      are not the stored ones. */
  ghost predicate WrittenForReused(h: Digests, db: Db, f: File, i: nat, kind: Kind)
    requires i < |FinalPlans(h, f)| == |f.placements|
  {
    var tag, items := f.placements[i].tag, FinalPlans(h, f)[i].Items(kind);
    var after, perBlob := Finished(h, db, f), BlobItems(h, f, FinalPlans(h, f), Conflicts(h, f), kind);
    && after.TagRows(tag, kind) == db.TagRows(tag, kind)
    && ((f.blob, tag, kind) in after.own <==> !SameAsStored(h, db, f, i, kind) && db.TagRows(tag, kind) != [])
    && after.PerBlob(kind) == db.PerBlob(kind) + LooseRows(f.names, f.blob, perBlob)
    && OfTag(perBlob, tag) == OfTag(f.LooseOf(kind), tag) + Spilled(h, f.shared, f.placements[i], kind)
                              + (if SameAsStored(h, db, f, i, kind) then [] else LooseKeyed(tag, items))
  }

  lemma {:induction false} ReusedTagIsShared(h: Digests, db: Db, f: File, i: nat, kind: Kind)
    requires Admissible(db, f) && i < |f.placements| && f.placements[i].recycled
    ensures |FinalPlans(h, f)| == |f.placements| && WrittenForReused(h, db, f, i, kind)
  {
    FinalPlansFor(h, f);
    hide Finished, FinalPlans, Conflicts, Admissible, SameAsStored, BlobItems, LooseRows, OfTag, Spilled, LooseKeyed, PlansFor;
    FinalSize(h, f);
    ReusedMark(h, db, f, i, kind);
    ReusedItems(h, db, f, i, kind);
    FinishedParts(h, db, f);
  }

  lemma {:induction false} FinalSize(h: Digests, f: File)
    ensures |FinalPlans(h, f)| == |f.placements|
  {
    FinalPlansFor(h, f);
    hide FinalPlans;
  }

  lemma {:induction false} ReusedMark(h: Digests, db: Db, f: File, i: nat, kind: Kind)
    requires Admissible(db, f) && i < |f.placements| == |FinalPlans(h, f)| && f.placements[i].recycled
    ensures Finished(h, db, f).TagRows(f.placements[i].tag, kind) == db.TagRows(f.placements[i].tag, kind)
    ensures (f.blob, f.placements[i].tag, kind) in Finished(h, db, f).own <==>
            !SameAsStored(h, db, f, i, kind) && db.TagRows(f.placements[i].tag, kind) != []
  {
    hide Admissible, SameAsStored, KeepsOwn, HasSharedRows, FinalPlans, Conflicts, TagRowsAfter, OwnMarks;
    FinalPlansFor(h, f);
    KeepsUnlessSame(h, db, f, i, kind);
    OwnAfter(db, f, FinalPlans(h, f), Conflicts(h, f), i, kind);
    TagAfter(db, f, FinalPlans(h, f), i, kind);
    FinishedParts(h, db, f);
  }

  lemma {:induction false} ReusedItems(h: Digests, db: Db, f: File, i: nat, kind: Kind)
    requires Admissible(db, f) && i < |f.placements| == |FinalPlans(h, f)| && f.placements[i].recycled
    ensures OfTag(BlobItems(h, f, FinalPlans(h, f), Conflicts(h, f), kind), f.placements[i].tag)
         == OfTag(f.LooseOf(kind), f.placements[i].tag) + Spilled(h, f.shared, f.placements[i], kind)
            + (if SameAsStored(h, db, f, i, kind) then [] else LooseKeyed(f.placements[i].tag, FinalPlans(h, f)[i].Items(kind)))
  {
    hide Admissible, SameAsStored, KeepsOwn, FinalPlans, Conflicts, OfTag, LooseKeyed, Spilled, SpilledAll, Kept;
    var plans, conflicts, tag := FinalPlans(h, f), Conflicts(h, f), f.placements[i].tag;
    FinalPlansFor(h, f);
    KeepsUnlessSame(h, db, f, i, kind);
    DistinctTags(db, f);
    SpilledOf(h, f.shared, f.placements, kind, tag);
    KeptOf(f.prior, conflicts, plans, kind, tag);
    OfTagConcat(f.LooseOf(kind) + SpilledAll(h, f.shared, f.placements, kind), Kept(f.prior, conflicts, plans, kind), tag);
    OfTagConcat(f.LooseOf(kind), SpilledAll(h, f.shared, f.placements, kind), tag);
  }

  lemma {:induction false} DistinctTags(db: Db, f: File)
    requires Admissible(db, f)
    ensures forall i, j :: 0 <= i < j < |f.placements| ==> f.placements[i].tag != f.placements[j].tag
  {
  }

  /** Nothing spills while all items lie in their tag and it has at most 64 definitions; of a tag with more, all spill. */
  lemma {:induction false} SpilledIs(h: Digests, p: Placement, kind: Kind)
    requires forall k :: 0 <= k < |p.Items(kind)| ==> p.lineS <= FirstLine(p.Items(kind)[k]) && LastLine(p.Items(kind)[k]) <= p.lineE
    ensures kind == Refs || |p.defs| <= 64 ==> Spilled(h, true, p, kind) == [] && |PlanOf(h, true, p).Items(kind)| == |p.Items(kind)|
    ensures kind == Defs && |p.defs| > 64 ==> PlanOf(h, true, p).defs == [] && |Spilled(h, true, p, kind)| == |p.defs|
  {
    AllKeyed(h, p, p.Items(kind));
    LooseSize(p.tag, KeyedItems(h, true, p, p.Items(kind)));
  }

  function FirstLine(it: Item): int {
    if it.RefItem? then it.line else it.lineS
  }

  function LastLine(it: Item): int {
    if it.RefItem? then it.line else it.lineE
  }

  lemma {:induction false} AllKeyed(h: Digests, p: Placement, items: seq<Item>)
    requires forall k :: 0 <= k < |items| ==> p.lineS <= FirstLine(items[k]) && LastLine(items[k]) <= p.lineE
    ensures |KeyedItems(h, true, p, items)| == |items| && OutsideItems(true, p, items) == []
  {
    if items != [] {
      AllKeyed(h, p, items[..|items|-1]);
    }
  }

  lemma {:induction false} LooseSize(tag: int, items: seq<Keyed>)
    ensures |LooseKeyed(tag, items)| == |items|
  {
    if items != [] {
      LooseSize(tag, items[..|items|-1]);
    }
  }

  // ---------------------------------------------------------------- the same text, moved

  /** The same item `d` lines further down. Its targets are another ChangeSet's. */
  predicate SameItem(a: Item, b: Item, d: int) {
    match a
    case RefItem(_, _, role, line, charS) => b.RefItem? && b.role == role && b.line == line + d && b.charS == charS
    case DefItem(_, name, typeId, linkage, lineS, lineE) =>
      b.DefItem? && b.name == name && b.typeId == typeId && b.linkage == linkage && b.lineS == lineS + d && b.lineE == lineE + d
  }

  predicate SameItems(a: seq<Item>, b: seq<Item>, d: int) {
    |a| == |b| && forall i :: 0 <= i < |a| ==> SameItem(a[i], b[i], d)
  }

  /** The tag's text with its items, some lines further down. */
  predicate MovedBy(p: Placement, q: Placement, d: int) {
    && q.tag == p.tag && q.lineS == p.lineS + d && q.lineE == p.lineE + d && q.charS == p.charS && q.code == p.code
    && SameItems(p.refs, q.refs, d) && SameItems(p.defs, q.defs, d)
  }

  /** Every tag of the file is reused with its items, each moved by some number of lines of its own. */
  ghost predicate MovedFile(f: File, g: File) {
    && f.shared && g.shared && |f.placements| == |g.placements|
    && (forall i :: 0 <= i < |f.placements| ==> !f.placements[i].recycled && g.placements[i].recycled)
    && (forall i :: 0 <= i < |f.placements| ==> exists d :: MovedBy(f.placements[i], g.placements[i], d))
  }

  /** The same keys for the same items. */
  predicate SameKeyed(a: seq<Keyed>, b: seq<Keyed>, d: int) {
    |a| == |b| && forall i :: 0 <= i < |a| ==> a[i].key == b[i].key && SameItem(a[i].item, b[i].item, d)
  }

  lemma {:induction false} MovedKey(h: Digests, p: Placement, q: Placement, a: Item, b: Item, d: int)
    requires MovedBy(p, q, d) && SameItem(a, b, d)
    ensures KeyOf(h, p, a) == KeyOf(h, q, b) && (p.Inside(a) <==> q.Inside(b))
    ensures forall key :: SharedOf(key, a, p.lineS) == SharedOf(key, b, q.lineS)
    ensures forall key :: RefinedKey(h, p, Keyed(key, a)) == RefinedKey(h, q, Keyed(key, b))
  {
  }

  lemma {:induction false} MovedKeyed(h: Digests, p: Placement, q: Placement, a: seq<Item>, b: seq<Item>, d: int)
    requires MovedBy(p, q, d) && SameItems(a, b, d)
    ensures SameKeyed(KeyedItems(h, true, p, a), KeyedItems(h, true, q, b), d)
  {
    hide KeyOf, MovedBy;
    if a != [] {
      var n := |a| - 1;
      MovedKeyed(h, p, q, a[..n], b[..n], d);
      MovedKey(h, p, q, a[n], b[n], d);
    }
  }

  lemma {:induction false} MovedPlan(h: Digests, p: Placement, q: Placement, d: int, kind: Kind)
    requires MovedBy(p, q, d)
    ensures SameKeyed(PlanOf(h, true, p).Items(kind), PlanOf(h, true, q).Items(kind), d)
  {
    MovedKeyed(h, p, q, p.refs, q.refs, d);
    MovedKeyed(h, p, q, p.defs, q.defs, d);
    hide KeyedItems;
  }

  lemma {:induction false} MovedRefined(h: Digests, ambiguous: set<int>, p: Placement, q: Placement, a: seq<Keyed>, b: seq<Keyed>, d: int)
    requires MovedBy(p, q, d) && SameKeyed(a, b, d)
    ensures SameKeyed(RefineItems(h, ambiguous, p, a), RefineItems(h, ambiguous, q, b), d)
  {
    hide RefinedKey, MovedBy;
    if a != [] {
      var n := |a| - 1;
      MovedRefined(h, ambiguous, p, q, a[..n], b[..n], d);
      MovedKey(h, p, q, a[n].item, b[n].item, d);
      assert a[n] == Keyed(a[n].key, a[n].item) && b[n] == Keyed(b[n].key, b[n].item);
    }
  }

  lemma {:induction false} MovedShared(h: Digests, p: Placement, q: Placement, a: seq<Keyed>, b: seq<Keyed>, d: int)
    requires MovedBy(p, q, d) && SameKeyed(a, b, d)
    ensures SharedAll(a, p.lineS) == SharedAll(b, q.lineS)
  {
    hide MovedBy, SharedOf;
    if a != [] {
      var n := |a| - 1;
      MovedShared(h, p, q, a[..n], b[..n], d);
      MovedKey(h, p, q, a[n].item, b[n].item, d);
    }
  }

  /** The keys that mean two things in the one parse are those that do in the other. */
  ghost predicate SameClashes(h: Digests, f: File, g: File) {
    ClashingKeys(f.names, Entries(Plans(h, f.shared, f.placements))) == ClashingKeys(g.names, Entries(Plans(h, g.shared, g.placements)))
  }

  /** The planned items of the moved tag, as rows, are those of the tag: with refined keys or without. */
  lemma {:induction false} MovedRows(h: Digests, ambiguous: set<int>, p: Placement, q: Placement, d: int, kind: Kind)
    requires MovedBy(p, q, d)
    ensures SharedAll(PlanOf(h, true, p).Items(kind), p.lineS) == SharedAll(PlanOf(h, true, q).Items(kind), q.lineS)
    ensures SharedAll(RefinePlan(h, ambiguous, PlanOf(h, true, p)).Items(kind), p.lineS)
         == SharedAll(RefinePlan(h, ambiguous, PlanOf(h, true, q)).Items(kind), q.lineS)
  {
    hide PlanOf, MovedBy, SharedAll, SameKeyed, RefineItems;
    PlanPlacement(h, p);
    PlanPlacement(h, q);
    var a, b := PlanOf(h, true, p).Items(kind), PlanOf(h, true, q).Items(kind);
    MovedPlan(h, p, q, d, kind);
    MovedShared(h, p, q, a, b, d);
    MovedRefined(h, ambiguous, p, q, a, b, d);
    MovedShared(h, p, q, RefineItems(h, ambiguous, p, a), RefineItems(h, ambiguous, q, b), d);
  }

  lemma {:induction false} PlanPlacement(h: Digests, p: Placement)
    ensures PlanOf(h, true, p).p == p
  {
  }

  /** The plan a file's rows are written from, one placement at a time. */
  lemma {:induction false} FinalPlanIs(h: Digests, f: File, i: nat, ambiguous: set<int>)
    requires i < |f.placements| && ambiguous == ClashingKeys(f.names, Entries(Plans(h, f.shared, f.placements)))
    ensures |FinalPlans(h, f)| == |f.placements|
    ensures var plan := PlanOf(h, f.shared, f.placements[i]);
            FinalPlans(h, f)[i] == if ambiguous == {} then plan else RefinePlan(h, ambiguous, plan)
  {
    hide ClashingKeys, Entries, PlanOf, RefinePlan;
  }

  lemma {:induction false} MovedFinal(h: Digests, f: File, g: File, i: nat, kind: Kind)
    requires MovedFile(f, g) && SameClashes(h, f, g) && i < |f.placements|
    ensures |FinalPlans(h, f)| == |FinalPlans(h, g)| == |f.placements|
    ensures SharedAll(FinalPlans(h, f)[i].Items(kind), f.placements[i].lineS) == SharedAll(FinalPlans(h, g)[i].Items(kind), g.placements[i].lineS)
  {
    hide FinalPlans, Plans, PlanOf, MovedBy, SharedAll, ClashingKeys, Entries, RefinePlan;
    var d :| MovedBy(f.placements[i], g.placements[i], d);
    var ambiguous := ClashingKeys(f.names, Entries(Plans(h, f.shared, f.placements)));
    FinalPlanIs(h, f, i, ambiguous);
    FinalPlanIs(h, g, i, ambiguous);
    MovedRows(h, ambiguous, f.placements[i], g.placements[i], d, kind);
  }

  /** The tags still have the rows the first version wrote. */
  ghost predicate StillStored(h: Digests, db: Db, f: File, now: Db) {
    forall i, kind :: 0 <= i < |f.placements| ==> now.TagRows(f.placements[i].tag, kind) == Finished(h, db, f).TagRows(f.placements[i].tag, kind)
  }

  lemma {:induction false} MovedIsSame(h: Digests, db: Db, f: File, now: Db, g: File, i: nat, kind: Kind)
    requires Admissible(db, f) && MovedFile(f, g) && SameClashes(h, f, g) && StillStored(h, db, f, now) && Conflicts(h, g) == {}
    requires i < |f.placements|
    ensures |FinalPlans(h, g)| == |g.placements| && SameAsStored(h, now, g, i, kind)
  {
    hide FinalPlans, Conflicts, SharedAll, Admissible, MovedFile, SameClashes, StillStored;
    FinalSize(h, g);
    MovedTag(f, g, i);
    MovedFinal(h, f, g, i, kind);
    NewTagRows(h, db, f, i, kind);
    StillThere(h, db, f, now, i, kind);
    hide Finished;
    SharedAllRows(FinalPlans(h, g)[i].Items(kind), g.placements[i].lineS);
  }

  lemma {:induction false} NewTagRows(h: Digests, db: Db, f: File, i: nat, kind: Kind)
    requires Admissible(db, f) && i < |f.placements| == |FinalPlans(h, f)| && !f.placements[i].recycled
    ensures Finished(h, db, f).TagRows(f.placements[i].tag, kind) == SharedAll(FinalPlans(h, f)[i].Items(kind), f.placements[i].lineS)
  {
    hide Admissible, FinalPlans, Conflicts, TagRowsAfter, SharedAll;
    FinalPlansFor(h, f);
    TagAfter(db, f, FinalPlans(h, f), i, kind);
    FinishedParts(h, db, f);
  }

  lemma {:induction false} MovedTag(f: File, g: File, i: nat)
    requires MovedFile(f, g) && i < |f.placements|
    ensures |g.placements| == |f.placements| && g.placements[i].tag == f.placements[i].tag
    ensures !f.placements[i].recycled && g.placements[i].recycled
  {
    var d :| MovedBy(f.placements[i], g.placements[i], d);
  }

  lemma {:induction false} StillThere(h: Digests, db: Db, f: File, now: Db, i: nat, kind: Kind)
    requires StillStored(h, db, f, now) && i < |f.placements|
    ensures now.TagRows(f.placements[i].tag, kind) == Finished(h, db, f).TagRows(f.placements[i].tag, kind)
  {
    hide Finished;
  }

  lemma {:induction false} NothingKept(prior: map<int, Stored>, conflicts: set<int>, plans: seq<Planned>, kind: Kind)
    requires forall i :: 0 <= i < |plans| ==> !KeepsOwn(prior, conflicts, plans[i], kind)
    ensures Kept(prior, conflicts, plans, kind) == []
  {
    hide KeepsOwn;
    if plans != [] {
      NothingKept(prior, conflicts, plans[..|plans|-1], kind);
    }
  }

  lemma {:induction false} NothingMarked(blob: int, prior: map<int, Stored>, conflicts: set<int>, plans: seq<Planned>)
    requires forall i, kind :: 0 <= i < |plans| ==> !KeepsOwn(prior, conflicts, plans[i], kind)
    ensures OwnMarks(blob, prior, conflicts, plans) == {}
  {
    hide KeepsOwn;
    if plans != [] {
      NothingMarked(blob, prior, conflicts, plans[..|plans|-1]);
    }
  }

  lemma {:induction false} NothingStoredAgain(rows: map<(int, Kind), seq<Shared>>, plans: seq<Planned>)
    requires forall i :: 0 <= i < |plans| ==> plans[i].p.recycled
    ensures TagRowsAfter(rows, plans) == rows
  {
    if plans != [] {
      NothingStoredAgain(rows, plans[..|plans|-1]);
    }
  }

  /** A later version with the same tags and items, every tag moved by any number of lines: as long as no key ends up with two
      meanings, no tag row and no own mark is written, and per blob only items outside their tags (or of tags with too many
      definitions) and tagless ones. The placements and the resolutions of the keys are all that is new. */
  lemma {:induction false} MovedFileWritesNothing(h: Digests, db: Db, f: File, now: Db, g: File)
    requires Admissible(db, f) && Admissible(now, g) && StillStored(h, db, f, now)
    requires MovedFile(f, g) && SameClashes(h, f, g) && Conflicts(h, g) == {}
    ensures var after := Finished(h, now, g);
            && after.tagRows == now.tagRows && after.own == now.own
            && forall kind :: after.PerBlob(kind)
                 == now.PerBlob(kind) + LooseRows(g.names, g.blob, g.LooseOf(kind) + SpilledAll(h, true, g.placements, kind))
  {
    hide FinalPlans, Conflicts, Admissible, SameClashes, StillStored, KeepsOwn, LooseRows, SpilledAll, SameAsStored, Finished, TagRowsAfter, OwnMarks, Kept;
    var plans := FinalPlans(h, g);
    FinalPlansFor(h, g);
    assert forall i :: 0 <= i < |plans| ==> plans[i].p.recycled;
    forall i, kind | 0 <= i < |plans| ensures !KeepsOwn(g.prior, Conflicts(h, g), plans[i], kind) {
      MovedIsSame(h, db, f, now, g, i, kind);
      KeepsUnlessSame(h, now, g, i, kind);
    }
    NothingMarked(g.blob, g.prior, Conflicts(h, g), plans);
    NothingStoredAgain(now.tagRows, plans);
    FinishedParts(h, now, g);
    hide MovedFile, PlansFor;
    forall kind ensures BlobItems(h, g, plans, Conflicts(h, g), kind) == g.LooseOf(kind) + SpilledAll(h, g.shared, g.placements, kind) {
      NothingKept(g.prior, Conflicts(h, g), plans, kind);
    }
  }

  lemma {:induction false} FinishedParts(h: Digests, db: Db, f: File)
    ensures Finished(h, db, f).tagRows == TagRowsAfter(db.tagRows, FinalPlans(h, f))
    ensures Finished(h, db, f).own == db.own + OwnMarks(f.blob, f.prior, Conflicts(h, f), FinalPlans(h, f))
    ensures forall kind :: Finished(h, db, f).PerBlob(kind)
              == db.PerBlob(kind) + LooseRows(f.names, f.blob, BlobItems(h, f, FinalPlans(h, f), Conflicts(h, f), kind))
  {
    hide FinalPlans, Conflicts, TagRowsAfter, OwnMarks, LooseRows, BlobItems;
  }
}
