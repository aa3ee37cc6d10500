/** The names a file is finished with (core/SymbolRows.py): its targets are compared by the fingerprints of the file's own
    operations. What the view theorem assumes of names is what those fingerprints give. */
module SymbolNames {
  import opened SymbolModel
  import opened SymbolFinish
  import Merkle = MerkleFingerprint

  const REF_POS := 2

  /** A target as the value the parser recorded. */
  function ValOf(t: Target): Merkle.Val {
    match t
    case Id(id) => Merkle.Plain(id)
    case Route(query, route) =>
      if |route| == 2 && route[0] == REF_POS then Merkle.Pos(query, route[1]) else Merkle.Other(query, route)
  }

  lemma {:induction false} ValOfTellsApart(a: Target, b: Target)
    requires ValOf(a) == ValOf(b)
    ensures a == b
  {
  }

  /** One parse: its operations, none of which reaches a cycle, the digest, and the row each target ends up with. */
  datatype Parse = Parse(ops: Merkle.Ops, rank: map<int, nat>, digest: Merkle.Digested -> int, row: Target -> int) {
    ghost predicate Valid() {
      Merkle.Grounded(ops, rank) && Merkle.CollisionFree(digest) && forall idx :: Merkle.HasOp(ops, idx) ==> idx in rank
    }

    ghost predicate Same(a: Target, b: Target)
      requires Valid()
    {
      Merkle.SameMeaning(ops, rank, ValOf(a), ValOf(b))
    }

    /** Rows are content-addressed: routes of the same kind to operations of the same content end up with the same row. */
    ghost predicate ByContent()
      requires Valid()
    {
      forall q, i, j :: i in rank && j in rank && Merkle.ContentOf(ops, rank, i) == Merkle.ContentOf(ops, rank, j) ==>
        RowAt(q, i) == RowAt(q, j)
    }

    function RowAt(q: int, i: int): int {
      row(Route(q, [REF_POS, i]))
    }
  }

  /** Fingerprints as numbers, different ones as different numbers. */
  ghost predicate Numbers(number: Merkle.Target -> int) {
    forall x, y :: number(x) == number(y) ==> x == y
  }

  /** The file's targets are compared by their fingerprints. */
  ghost predicate NamedBy(p: Parse, number: Merkle.Target -> int, names: Names)
    requires p.Valid()
  {
    names.row == p.row && forall t :: names.fp(t) == number(Merkle.FingerprintOf(p.ops, p.rank, p.digest, ValOf(t)))
  }

  /** Two targets compare equal exactly when they mean the same: no clash is missed, and none is seen where there is none. */
  lemma {:induction false} ComparedByMeaning(p: Parse, number: Merkle.Target -> int, names: Names, a: Target, b: Target)
    requires p.Valid() && Numbers(number) && NamedBy(p, number, names)
    ensures names.fp(a) == names.fp(b) <==> p.Same(a, b)
  {
    hide Merkle.FingerprintOf, Merkle.SameMeaning, Merkle.Grounded, Merkle.CollisionFree;
    Merkle.FingerprintsTellApart(p.ops, p.rank, p.digest, ValOf(a), ValOf(b));
  }

  lemma {:induction false} SameRow(p: Parse, a: Target, b: Target)
    requires p.Valid() && p.ByContent() && p.Same(a, b)
    ensures p.row(a) == p.row(b)
  {
    hide Merkle.ContentOf, Merkle.Grounded, Merkle.CollisionFree;
    var x, y := ValOf(a), ValOf(b);
    if x.Pos? && y.Pos? && Merkle.HasOp(p.ops, x.idx) && Merkle.HasOp(p.ops, y.idx) {
      assert a == Route(x.query, [REF_POS, x.idx]) && b == Route(y.query, [REF_POS, y.idx]);
      assert p.RowAt(x.query, x.idx) == p.RowAt(y.query, y.idx);
    } else {
      ValOfTellsApart(a, b);
    }
  }

  /** Equal fingerprints resolve to the same row. */
  lemma {:induction false} NamesAreSound(p: Parse, number: Merkle.Target -> int, names: Names)
    requires p.Valid() && p.ByContent() && Numbers(number) && NamedBy(p, number, names)
    ensures names.Sound()
  {
    hide NamedBy, Numbers;
    RowsOf(p, number, names);
    forall a, b | names.fp(a) == names.fp(b) ensures names.row(a) == names.row(b) {
      ComparedByMeaning(p, number, names, a, b);
      SameRow(p, a, b);
    }
  }

  lemma {:induction false} RowsOf(p: Parse, number: Merkle.Target -> int, names: Names)
    requires p.Valid() && NamedBy(p, number, names)
    ensures names.row == p.row
  {
  }

  /** A key clashes exactly when two items use it for targets that do not mean the same. */
  lemma {:induction false} ClashesByMeaning(p: Parse, number: Merkle.Target -> int, names: Names, entries: seq<Keyed>, key: int)
    requires p.Valid() && Numbers(number) && NamedBy(p, number, names)
    ensures Clashes(names, entries, key) <==>
            exists i, j :: 0 <= i < |entries| && 0 <= j < |entries| && entries[i].key == key == entries[j].key && !SamePair(p, entries[i].item, entries[j].item)
  {
    hide Numbers, NamedBy;
    forall i, j | 0 <= i < |entries| && 0 <= j < |entries|
      ensures SamePair(p, entries[i].item, entries[j].item) <==> Print(names, entries[i].item) == Print(names, entries[j].item)
    {
      ComparedByMeaning(p, number, names, entries[i].item.Pair().0, entries[j].item.Pair().0);
      ComparedByMeaning(p, number, names, entries[i].item.Pair().1, entries[j].item.Pair().1);
    }
  }

  ghost predicate SamePair(p: Parse, a: Item, b: Item)
    requires p.Valid()
  {
    p.Same(a.Pair().0, b.Pair().0) && p.Same(a.Pair().1, b.Pair().1)
  }

  // ---------------------------------------------------------------- the views, from fingerprints

  /** Every file of the history is compared by the fingerprints of its own parse, and its rows are content-addressed. */
  ghost predicate Parsed(number: Merkle.Target -> int, files: seq<File>, parses: seq<Parse>) {
    && Numbers(number) && |parses| == |files|
    && forall i :: 0 <= i < |files| ==> parses[i].Valid() && parses[i].ByContent() && NamedBy(parses[i], number, files[i].names)
  }

  /** The view theorem with nothing assumed of names: fingerprints of the operations give them. */
  lemma {:induction false} ViewIsRecordedByFingerprints(h: Digests, number: Merkle.Target -> int, files: seq<File>, parses: seq<Parse>, kind: Kind)
    requires Parsed(number, files, parses) && forall i :: 0 <= i < |files| ==> Fits(Run(h, files[..i]), files[i])
    ensures multiset(View(Run(h, files), kind)) == RecordedBy(files, kind)
  {
    hide Fits, Run, NamedBy;
    forall i | 0 <= i < |files| ensures Admissible(Run(h, files[..i]), files[i]) {
      NamesAreSound(parses[i], number, files[i].names);
    }
    ViewIsRecorded(h, files, kind);
  }
}
