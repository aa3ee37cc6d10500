/** `CompressedChangeSetDict` (core/GreatProcessor.py): a store for executed ChangeSets, a small cache of live ones and a
    compressed store behind it, which together answer like one dictionary. */
module CompressedDict {
  import opened Basics

  /** Paths. */
  type Key = int

  /** A ChangeSet: its picklable content, whether it has executed, whether it still holds operations or a position index,
      and its process-local references, which compression drops. */
  datatype Value = Value(content: int, executed: bool, hasOps: bool, hasIndex: bool, links: int)

  /** What a caller may rely on after a round trip: everything but the process-local references. */
  function Bare(v: Value): Value {
    v.(links := 0)
  }

  predicate IsEvacuated(v: Value) {
    v.executed && !v.hasOps && !v.hasIndex
  }

  function BareEntry(v: Option<Value>): Option<Value> {
    if v.Some? then Some(Bare(v.value)) else None
  }

  /** Compressed bytes, and the way in and out of them. */
  datatype Codec = Codec(zip: Value -> int, unzip: int -> Value)
  {
    /** Compression succeeds and loses only the process-local references. */
    ghost predicate RoundTrips() {
      (forall v :: unzip(zip(v)) == Bare(v)) && forall b :: unzip(b) == Bare(unzip(b))
    }
  }

  /** The order of an LRU cache lists its keys, each once, oldest first. */
  ghost predicate Lists(order: seq<Key>, keys: set<Key>) {
    Distinct(order) && forall k :: k in order <==> k in keys
  }

  function Drop(order: seq<Key>, k: Key): (r: seq<Key>)
    ensures |r| <= |order|
  {
    if order == [] then [] else if order[0] == k then order[1..] else [order[0]] + Drop(order[1..], k)
  }

  lemma {:induction false} DropLists(order: seq<Key>, k: Key, keys: set<Key>)
    requires Lists(order, keys)
    ensures Lists(Drop(order, k), keys - {k})
    decreases |order|
  {
    if order != [] {
      var head, tail := order[0], order[1..];
      assert order == [head] + tail;
      assert head !in tail && Distinct(tail);
      if head != k {
        DropLists(tail, k, keys - {head});
        var rest := Drop(tail, k);
        assert Drop(order, k) == [head] + rest;
        PrependLists(head, rest, keys - {head} - {k});
        assert (keys - {head} - {k}) + {head} == keys - {k};
      }
    }
  }

  lemma {:induction false} PrependLists(k: Key, order: seq<Key>, keys: set<Key>)
    requires Lists(order, keys) && k !in keys
    ensures Lists([k] + order, keys + {k})
  {
    assert k !in order;
  }

  lemma {:induction false} AppendLists(order: seq<Key>, k: Key, keys: set<Key>)
    requires Lists(order, keys) && k !in keys
    ensures Lists(order + [k], keys + {k})
  {
  }

  // ---------------------------------------------------------------- the stores

  /** `live` numbers the object a caller holds when it was handed an entry: an entry that is compressed and read again is
      another object. */
  datatype Stores = Stores(allKeys: set<Key>, evacuated: map<Key, Value>, compressed: map<Key, Option<int>>, cache: map<Key, Value>,
                           order: seq<Key>, live: map<Key, nat>, next: nat)

  /** What the stores say about a key. */
  function Answer(codec: Codec, s: Stores, k: Key): Option<Value> {
    if k in s.evacuated then Some(Bare(s.evacuated[k]))
    else if k in s.cache then Some(Bare(s.cache[k]))
    else if k in s.compressed && s.compressed[k].Some? then Some(codec.unzip(s.compressed[k].value))
    else None
  }

  /** The dictionary the stores stand for. */
  function ContentsOf(codec: Codec, s: Stores): map<Key, Option<Value>> {
    map k | k in s.allKeys :: Answer(codec, s, k)
  }

  predicate KeyOk(s: Stores, k: Key) {
    && (k in s.allKeys <==> k in s.evacuated || k in s.cache || k in s.compressed)
    && (k in s.evacuated ==> k !in s.cache && k !in s.compressed)
    && (k in s.live <==> k in s.evacuated || k in s.cache)
    && (k in s.live ==> s.live[k] < s.next)
  }

  /** The stores cover the keys, and exactly the uncompressed entries are live objects; the evacuated store shares none with the others; stale compressed copies of cached
      entries are allowed. */
  ghost predicate Shaped(codec: Codec, s: Stores) {
    codec.RoundTrips() && (forall k :: KeyOk(s, k)) && Lists(s.order, s.cache.Keys)
  }

  /** Store an entry. */
  function Placed(s: Stores, key: Key, value: Option<Value>): Stores {
    if value.None? then
      Stores(s.allKeys + {key}, s.evacuated - {key}, s.compressed[key := None], s.cache - {key}, Drop(s.order, key), s.live - {key}, s.next)
    else if IsEvacuated(value.value) then
      Stores(s.allKeys + {key}, s.evacuated[key := value.value], s.compressed - {key}, s.cache - {key}, Drop(s.order, key),
             s.live[key := s.next], s.next + 1)
    else
      Stores(s.allKeys + {key}, s.evacuated - {key}, s.compressed, (s.cache - {key})[key := value.value], Drop(s.order, key) + [key],
             s.live[key := s.next], s.next + 1)
  }

  lemma {:induction false} PlacedOk(codec: Codec, s: Stores, key: Key, value: Option<Value>)
    requires Shaped(codec, s)
    ensures Shaped(codec, Placed(s, key, value))
    ensures ContentsOf(codec, Placed(s, key, value)) == ContentsOf(codec, s)[key := BareEntry(value)]
  {
    var s' := Placed(s, key, value);
    hide Placed, Answer, BareEntry;
    forall k ensures KeyOk(s', k) && (k != key ==> Answer(codec, s', k) == Answer(codec, s, k)) {
      assert KeyOk(s, k);
      PlacedKey(codec, s, key, value, k);
    }
    PlacedLists(s, key, value);
    PlacedHere(codec, s, key, value);
    hide Placed, KeyOk, Answer, Lists, BareEntry;
  }

  lemma {:induction false} PlacedHere(codec: Codec, s: Stores, key: Key, value: Option<Value>)
    ensures Placed(s, key, value).allKeys == s.allKeys + {key} && Answer(codec, Placed(s, key, value), key) == BareEntry(value)
  {
  }

  lemma {:induction false} PlacedKey(codec: Codec, s: Stores, key: Key, value: Option<Value>, k: Key)
    requires KeyOk(s, k)
    ensures KeyOk(Placed(s, key, value), k) && (k != key ==> Answer(codec, Placed(s, key, value), k) == Answer(codec, s, k))
  {
  }

  lemma {:induction false} PlacedLists(s: Stores, key: Key, value: Option<Value>)
    requires Lists(s.order, s.cache.Keys)
    ensures Lists(Placed(s, key, value).order, Placed(s, key, value).cache.Keys)
  {
    DropLists(s.order, key, s.cache.Keys);
    AppendLists(Drop(s.order, key), key, s.cache.Keys - {key});
    var cache := s.cache - {key};
    assert cache.Keys == s.cache.Keys - {key};
    if value.Some? {
      assert cache[key := value.value].Keys == cache.Keys + {key};
    }
  }

  /** The oldest cached entry leaves the cache, as it is now. */
  function EvictedOne(codec: Codec, s: Stores): Stores
    requires s.order != [] && s.order[0] in s.cache
  {
    var k := s.order[0];
    var v := s.cache[k];
    if IsEvacuated(v) then
      s.(cache := s.cache - {k}, order := s.order[1..], compressed := s.compressed - {k}, evacuated := s.evacuated[k := v])
    else
      s.(cache := s.cache - {k}, order := s.order[1..], compressed := s.compressed[k := Some(codec.zip(v))], live := s.live - {k})
  }

  lemma {:induction false} EvictedOk(codec: Codec, s: Stores)
    requires Shaped(codec, s) && s.order != []
    ensures s.order[0] in s.cache && Shaped(codec, EvictedOne(codec, s)) && ContentsOf(codec, EvictedOne(codec, s)) == ContentsOf(codec, s)
  {
    assert s.order[0] in s.order;
    var s' := EvictedOne(codec, s);
    var key := s.order[0];
    assert KeyOk(s, key);
    forall k ensures KeyOk(s', k) && Answer(codec, s', k) == Answer(codec, s, k) {
      assert KeyOk(s, k);
    }
    DropLists(s.order, key, s.cache.Keys);
    assert (s.cache - {key}).Keys == s.cache.Keys - {key};
  }

  /** A compressed entry that is read becomes live: cached, or moved to the evacuated store. */
  function Loaded(s: Stores, k: Key, v: Value): Stores {
    if IsEvacuated(v) then s.(compressed := s.compressed - {k}, evacuated := s.evacuated[k := v], live := s.live[k := s.next], next := s.next + 1)
    else s.(cache := s.cache[k := v], order := s.order + [k], live := s.live[k := s.next], next := s.next + 1)
  }

  lemma {:induction false} LoadedOk(codec: Codec, s: Stores, k: Key, v: Value)
    requires Shaped(codec, s) && k in s.compressed && k !in s.cache && k !in s.evacuated && Answer(codec, s, k) == Some(Bare(v))
    ensures Shaped(codec, Loaded(s, k, v)) && ContentsOf(codec, Loaded(s, k, v)) == ContentsOf(codec, s)
  {
    var s' := Loaded(s, k, v);
    assert KeyOk(s, k);
    forall j ensures KeyOk(s', j) && Answer(codec, s', j) == Answer(codec, s, j) {
      assert KeyOk(s, j);
    }
    AppendLists(s.order, k, s.cache.Keys);
    assert s.cache[k := v].Keys == s.cache.Keys + {k};
  }

  function Removed(s: Stores, key: Key): Stores {
    Stores(s.allKeys - {key}, s.evacuated - {key}, s.compressed - {key}, s.cache - {key}, Drop(s.order, key), s.live - {key}, s.next)
  }

  lemma {:induction false} RemovedOk(codec: Codec, s: Stores, key: Key)
    requires Shaped(codec, s)
    ensures Shaped(codec, Removed(s, key)) && ContentsOf(codec, Removed(s, key)) == ContentsOf(codec, s) - {key}
  {
    var s' := Removed(s, key);
    forall k ensures KeyOk(s', k) && (k != key ==> Answer(codec, s', k) == Answer(codec, s, k)) {
      assert KeyOk(s, k);
    }
    DropLists(s.order, key, s.cache.Keys);
    assert (s.cache - {key}).Keys == s.cache.Keys - {key};
  }

  /** Reading a cached entry makes it the newest. */
  lemma {:induction false} TouchedOk(codec: Codec, s: Stores, k: Key)
    requires Shaped(codec, s) && k in s.cache
    ensures Shaped(codec, s.(order := Drop(s.order, k) + [k])) && ContentsOf(codec, s.(order := Drop(s.order, k) + [k])) == ContentsOf(codec, s)
    ensures |Drop(s.order, k) + [k]| == |s.order|
  {
    DropLists(s.order, k, s.cache.Keys);
    AppendLists(Drop(s.order, k), k, s.cache.Keys - {k});
    var s' := s.(order := Drop(s.order, k) + [k]);
    forall j ensures KeyOk(s', j) {
      assert KeyOk(s, j);
    }
    DropShortens(s.order, k);
    assert (s.cache.Keys - {k}) + {k} == s.cache.Keys;
  }

  lemma {:induction false} DropShortens(order: seq<Key>, k: Key)
    requires k in order
    ensures |Drop(order, k)| == |order| - 1
    decreases |order|
  {
    if order[0] != k {
      DropShortens(order[1..], k);
    }
  }

  /** An entry changed in place by its holder. */
  lemma {:induction false} EditedOk(codec: Codec, s: Stores, k: Key, v: Value, s': Stores)
    requires Shaped(codec, s)
    requires if k in s.evacuated then s' == s.(evacuated := s.evacuated[k := v]) else k in s.cache && s' == s.(cache := s.cache[k := v])
    ensures Shaped(codec, s') && ContentsOf(codec, s') == ContentsOf(codec, s)[k := Some(Bare(v))]
  {
    assert KeyOk(s, k);
    forall j ensures KeyOk(s', j) && (j != k ==> Answer(codec, s', j) == Answer(codec, s, j)) {
      assert KeyOk(s, j);
    }
    assert s'.cache.Keys == s.cache.Keys && Answer(codec, s', k) == Some(Bare(v)) && k in s.allKeys;
    hide KeyOk, Answer, Lists, Bare;
  }

  /** Every cached entry has a current compressed copy. */
  ghost function Flushed(codec: Codec, s: Stores): Stores {
    s.(compressed := map k | k in s.compressed.Keys + s.cache.Keys :: if k in s.cache then Some(codec.zip(s.cache[k])) else s.compressed[k])
  }

  lemma {:induction false} FlushedOk(codec: Codec, s: Stores)
    requires Shaped(codec, s)
    ensures Shaped(codec, Flushed(codec, s)) && ContentsOf(codec, Flushed(codec, s)) == ContentsOf(codec, s)
    ensures var bare := Flushed(codec, s).(cache := map[], order := [], live := s.live - s.cache.Keys);
            Shaped(codec, bare) && ContentsOf(codec, bare) == ContentsOf(codec, s)
  {
    var s' := Flushed(codec, s);
    var bare := s'.(cache := map[], order := [], live := s.live - s.cache.Keys);
    forall k ensures KeyOk(s', k) && Answer(codec, s', k) == Answer(codec, s, k) && KeyOk(bare, k) && Answer(codec, bare, k) == Answer(codec, s, k) {
      assert KeyOk(s, k);
    }
    assert s'.cache.Keys == s.cache.Keys;
  }

  // ---------------------------------------------------------------- the dictionary

  datatype Found = Missing | Present(entry: Option<Value>)

  function BareFound(f: Found): Found {
    if f.Present? then Present(BareEntry(f.entry)) else f
  }

  /** What a plain dictionary answers. */
  function Plain(contents: map<Key, Option<Value>>, k: Key): Found {
    if k in contents then Present(contents[k]) else Missing
  }

  /** What the stores answer to a read, the object included. */
  function FoundIn(codec: Codec, s: Stores, k: Key): Found {
    if k in s.evacuated then Present(Some(s.evacuated[k]))
    else if k in s.cache then Present(Some(s.cache[k]))
    else if k !in s.compressed then Missing
    else if s.compressed[k].None? then Present(None)
    else Present(Some(codec.unzip(s.compressed[k].value)))
  }

  // ---------------------------------------------------------------- the stores after each call

  /** The oldest cached entries leave until the cache fits. */
  ghost function Evicted(codec: Codec, lru: nat, s: Stores): (r: Stores)
    requires Shaped(codec, s)
    ensures Shaped(codec, r) && |r.order| <= lru && ContentsOf(codec, r) == ContentsOf(codec, s)
    decreases |s.order|
  {
    if |s.order| <= lru then s
    else
      EvictedOk(codec, s);
      Evicted(codec, lru, EvictedOne(codec, s))
  }

  ghost function AfterLoad(codec: Codec, lru: nat, s: Stores, k: Key): (r: Stores)
    requires Shaped(codec, s) && |s.order| <= lru
    ensures Shaped(codec, r) && |r.order| <= lru && ContentsOf(codec, r) == ContentsOf(codec, s)
  {
    if k in s.evacuated then s
    else if k in s.cache then
      TouchedOk(codec, s, k);
      s.(order := Drop(s.order, k) + [k])
    else if k in s.compressed && s.compressed[k].Some? then
      var v := codec.unzip(s.compressed[k].value);
      LoadAnswer(codec, s, k);
      LoadedOk(codec, s, k, v);
      if IsEvacuated(v) then Loaded(s, k, v) else Evicted(codec, lru, Loaded(s, k, v))
    else s
  }

  ghost function AfterSet(codec: Codec, lru: nat, s: Stores, k: Key, v: Option<Value>): (r: Stores)
    requires Shaped(codec, s)
    ensures Shaped(codec, r) && |r.order| <= lru && ContentsOf(codec, r) == ContentsOf(codec, s)[k := BareEntry(v)]
  {
    PlacedOk(codec, s, k, v);
    Evicted(codec, lru, Placed(s, k, v))
  }

  /** The object under the key was changed in place. */
  function Changed(s: Stores, k: Key, v: Value): Stores {
    if k in s.evacuated then s.(evacuated := s.evacuated[k := v])
    else if k in s.cache then s.(cache := s.cache[k := v])
    else s
  }

  ghost function PlacedAll(codec: Codec, s: Stores, items: seq<(Key, Option<Value>)>): (r: Stores)
    requires Shaped(codec, s)
    ensures Shaped(codec, r) && ContentsOf(codec, r) == Updated(ContentsOf(codec, s), items)
  {
    if items == [] then s
    else
      var n := |items| - 1;
      var before := PlacedAll(codec, s, items[..n]);
      PlacedOk(codec, before, items[n].0, items[n].1);
      Placed(before, items[n].0, items[n].1)
  }

  function Emptied(s: Stores): Stores {
    Stores({}, map[], map[], map[], [], map[], s.next)
  }

  /** One call of `CompressedChangeSetDict`. */
  ghost function AfterCall(codec: Codec, lru: nat, s: Stores, call: Call): (r: Stores)
    requires Shaped(codec, s) && |s.order| <= lru
  {
    match call
    case SetItem(k, v) => AfterSet(codec, lru, s, k, v)
    case GetItem(k) => AfterLoad(codec, lru, s, k)
    case ChangeItem(k, v) => Changed(AfterLoad(codec, lru, s, k), k, v)
    case DelItem(k) => Removed(s, k)
    case PopItem(k) => if k in s.allKeys then Removed(AfterLoad(codec, lru, s, k), k) else s
    case Default(k, v) => if k in s.allKeys then AfterLoad(codec, lru, s, k) else AfterSet(codec, lru, s, k, v)
    case UpdateAll(items) => Evicted(codec, lru, PlacedAll(codec, s, items))
    case FlushAll => Flushed(codec, s)
    case ClearAll => Emptied(s)
  }

  lemma {:induction false} AfterCallOk(codec: Codec, lru: nat, s: Stores, call: Call)
    requires Shaped(codec, s) && |s.order| <= lru
    ensures Shaped(codec, AfterCall(codec, lru, s, call)) && |AfterCall(codec, lru, s, call).order| <= lru
  {
    hide Shaped, ContentsOf, Updated;
    match call
    case ChangeItem(k, v) => ChangedOk(codec, AfterLoad(codec, lru, s, k), k, v);
    case DelItem(k) =>
      RemovedOk(codec, s, k);
    case PopItem(k) =>
      RemovedOk(codec, AfterLoad(codec, lru, s, k), k);
    case FlushAll => FlushedOk(codec, s);
    case ClearAll => EmptiedOk(codec, s);
    case _ =>
  }

  lemma {:induction false} ChangedOk(codec: Codec, s: Stores, k: Key, v: Value)
    requires Shaped(codec, s)
    ensures Shaped(codec, Changed(s, k, v)) && Changed(s, k, v).order == s.order
    ensures ContentsOf(codec, Changed(s, k, v)) == if k in s.live then ContentsOf(codec, s)[k := Some(Bare(v))] else ContentsOf(codec, s)
  {
    assert KeyOk(s, k);
    if k in s.live {
      hide ContentsOf;
      EditedOk(codec, s, k, v, Changed(s, k, v));
    }
  }

  lemma {:induction false} EmptiedOk(codec: Codec, s: Stores)
    requires Shaped(codec, s)
    ensures Shaped(codec, Emptied(s)) && ContentsOf(codec, Emptied(s)) == map[]
  {
  }

  ghost function AfterCalls(codec: Codec, lru: nat, s: Stores, calls: seq<Call>): (r: Stores)
    requires Shaped(codec, s) && |s.order| <= lru
    ensures Shaped(codec, r) && |r.order| <= lru
  {
    if calls == [] then s
    else
      var n := |calls| - 1;
      AfterCallOk(codec, lru, AfterCalls(codec, lru, s, calls[..n]), calls[n]);
      AfterCall(codec, lru, AfterCalls(codec, lru, s, calls[..n]), calls[n])
  }

  datatype Call =
    | SetItem(key: Key, value: Option<Value>)
    | GetItem(key: Key)
    | ChangeItem(key: Key, changed: Value)
    | DelItem(key: Key)
    | PopItem(key: Key)
    | Default(key: Key, value: Option<Value>)
    | UpdateAll(items: seq<(Key, Option<Value>)>)
    | FlushAll
    | ClearAll

  function Updated(contents: map<Key, Option<Value>>, items: seq<(Key, Option<Value>)>): map<Key, Option<Value>> {
    if items == [] then contents
    else var n := |items| - 1; Updated(contents, items[..n])[items[n].0 := BareEntry(items[n].1)]
  }

  /** A plain dictionary after a call. */
  function PlainAfter(m: map<Key, Option<Value>>, call: Call): map<Key, Option<Value>> {
    match call
    case SetItem(k, v) => m[k := BareEntry(v)]
    case ChangeItem(k, v) => if k in m && m[k].Some? then m[k := Some(Bare(v))] else m
    case DelItem(k) => m - {k}
    case PopItem(k) => m - {k}
    case Default(k, v) => if k in m then m else m[k := BareEntry(v)]
    case UpdateAll(items) => Updated(m, items)
    case ClearAll => map[]
    case _ => m
  }

  /** What a plain dictionary answers to a call; a call that returns nothing answers `Missing`. */
  function PlainAnswer(m: map<Key, Option<Value>>, call: Call): Found {
    match call
    case GetItem(k) => Plain(m, k)
    case ChangeItem(k, _) => Plain(m, k)
    case PopItem(k) => Plain(m, k)
    case Default(k, v) => if k in m then Present(m[k]) else Present(BareEntry(v))
    case _ => Missing
  }

  function PlainRun(m: map<Key, Option<Value>>, calls: seq<Call>): map<Key, Option<Value>> {
    if calls == [] then m else var n := |calls| - 1; PlainAfter(PlainRun(m, calls[..n]), calls[n])
  }

  function PlainAnswers(m: map<Key, Option<Value>>, calls: seq<Call>): seq<Found> {
    if calls == [] then []
    else var n := |calls| - 1; PlainAnswers(m, calls[..n]) + [PlainAnswer(PlainRun(m, calls[..n]), calls[n])]
  }

  // ---------------------------------------------------------------- objects that stay live

  function KeysOfItems(items: seq<(Key, Option<Value>)>): set<Key> {
    set i | 0 <= i < |items| :: items[i].0
  }

  /** The keys a call uses. */
  function KeysOfCall(call: Call): set<Key> {
    match call
    case SetItem(k, _) => {k}
    case GetItem(k) => {k}
    case ChangeItem(k, _) => {k}
    case DelItem(k) => {k}
    case PopItem(k) => {k}
    case Default(k, _) => {k}
    case UpdateAll(items) => KeysOfItems(items)
    case _ => {}
  }

  function KeysOf(calls: seq<Call>): set<Key> {
    if calls == [] then {} else KeysOf(calls[..|calls|-1]) + KeysOfCall(calls[|calls|-1])
  }

  /** The call puts another object under the key, or removes it. */
  predicate Replaces(call: Call, key: Key) {
    match call
    case SetItem(k, _) => k == key
    case DelItem(k) => k == key
    case PopItem(k) => k == key
    case UpdateAll(items) => key in KeysOfItems(items)
    case ClearAll => true
    case _ => false
  }

  /** In the order, only keys of `others` are newer than the key. */
  predicate NewerIn(order: seq<Key>, key: Key, others: set<Key>) {
    forall i, j :: 0 <= i < j < |order| && order[i] == key ==> order[j] in others
  }

  /** The key's entry is the object `handle`, and if it is cached only keys of `others` are newer. */
  predicate Held(s: Stores, key: Key, handle: nat, others: set<Key>) {
    key in s.live && s.live[key] == handle && NewerIn(s.order, key, others)
  }

  /** Right after a read the entry is live, and nothing is newer. */
  lemma {:induction false} LoadedLive(codec: Codec, lru: nat, s: Stores, k: Key)
    requires Shaped(codec, s) && |s.order| <= lru
    ensures var r := AfterLoad(codec, lru, s, k); var found := FoundIn(codec, s, k);
            && (k in r.live <==> found.Present? && found.entry.Some? && (lru > 0 || k in s.evacuated || IsEvacuated(found.entry.value)))
            && NewerIn(r.order, k, {})
  {
    assert KeyOk(s, k);
    if k in s.evacuated {
      NotCached(codec, s, k);
    } else if k in s.cache {
      NotEmptyCache(codec, s, k);
      LastIsNewest(codec, s, k);
    } else if k in s.compressed && s.compressed[k].Some? {
      var v := codec.unzip(s.compressed[k].value);
      LoadAnswer(codec, s, k);
      LoadedOk(codec, s, k, v);
      NotCached(codec, s, k);
      if !IsEvacuated(v) {
        hide Shaped, ContentsOf;
        EvictedLast(codec, lru, Loaded(s, k, v), k);
      }
    } else {
      NotCached(codec, s, k);
    }
  }

  lemma {:induction false} NotCached(codec: Codec, s: Stores, k: Key)
    requires Shaped(codec, s) && k !in s.cache
    ensures k !in s.order && forall others :: NewerIn(s.order, k, others)
  {
  }

  lemma {:induction false} LastIsNewest(codec: Codec, s: Stores, k: Key)
    requires Shaped(codec, s) && k in s.cache
    ensures NewerIn(Drop(s.order, k) + [k], k, {})
  {
    DropLists(s.order, k, s.cache.Keys);
  }

  lemma {:induction false} CachedInOrder(codec: Codec, s: Stores)
    requires Shaped(codec, s)
    ensures Lists(s.order, s.cache.Keys) && forall k :: k in s.order ==> k in s.cache
  {
  }

  /** Evicting keeps the newest entry, if there is room for one. */
  lemma {:induction false} EvictedLast(codec: Codec, lru: nat, s: Stores, k: Key)
    requires Shaped(codec, s) && s.order != [] && s.order[|s.order|-1] == k && k in s.live && k in s.cache && !IsEvacuated(s.cache[k])
    ensures var r := Evicted(codec, lru, s); (k in r.live <==> lru > 0) && NewerIn(r.order, k, {})
    decreases |s.order|
  {
    hide Shaped, ContentsOf, EvictedOne, NewerIn;
    if |s.order| > lru {
      EvictedOk(codec, s);
      EvictedTail(codec, s, k);
      if |s.order| > 1 {
        EvictedLast(codec, lru, EvictedOne(codec, s), k);
      }
    } else {
      LastAlone(codec, s, k);
    }
  }

  lemma {:induction false} LastAlone(codec: Codec, s: Stores, k: Key)
    requires Shaped(codec, s) && s.order != [] && s.order[|s.order|-1] == k
    ensures NewerIn(s.order, k, {})
  {
  }

  /** One eviction leaves the newest entry alone, unless it is the only one. */
  lemma {:induction false} EvictedTail(codec: Codec, s: Stores, k: Key)
    requires Shaped(codec, s) && s.order != [] && s.order[|s.order|-1] == k && k in s.live && k in s.cache && !IsEvacuated(s.cache[k]) && s.order[0] in s.cache
    ensures |EvictedOne(codec, s).order| == |s.order| - 1
    ensures var one := EvictedOne(codec, s);
            if |s.order| > 1 then one.order != [] && one.order[|one.order|-1] == k && k in one.live && k in one.cache && one.cache[k] == s.cache[k]
            else one.order == [] && k !in one.live && NewerIn(one.order, k, {})
  {
    assert |s.order| > 1 ==> s.order[0] != k;
  }

  lemma {:induction false} DistinctFits(q: seq<Key>, keys: set<Key>)
    requires Distinct(q) && forall i :: 0 <= i < |q| ==> q[i] in keys
    ensures |q| <= |keys|
    decreases |q|
  {
    if q != [] {
      var n := |q| - 1;
      DistinctFits(q[..n], keys - {q[n]});
    }
  }

  lemma {:induction false} DropNewer(order: seq<Key>, j: Key, k: Key, others: set<Key>)
    requires NewerIn(order, k, others)
    ensures NewerIn(Drop(order, j), k, others) && forall x :: x in Drop(order, j) ==> x in order
    decreases |order|
  {
    if order != [] && order[0] != j {
      var rest := order[1..];
      assert order == [order[0]] + rest;
      DropNewer(rest, j, k, others);
      if order[0] == k {
        forall x | x in rest ensures x in others {
          var i :| 0 <= i < |rest| && rest[i] == x;
          assert order[i + 1] == x;
        }
      }
    }
  }

  lemma {:induction false} AppendNewer(order: seq<Key>, j: Key, k: Key, others: set<Key>)
    requires NewerIn(order, k, others) && j in others
    ensures NewerIn(order + [j], k, others) || j == k
  {
  }

  lemma {:induction false} HeldEvicted(codec: Codec, lru: nat, s: Stores, k: Key, handle: nat, others: set<Key>)
    requires Shaped(codec, s) && Held(s, k, handle, others) && |others| < lru
    ensures Held(Evicted(codec, lru, s), k, handle, others)
    decreases |s.order|
  {
    if |s.order| > lru {
      CachedInOrder(codec, s);
      EvictedOk(codec, s);
      var rest := s.order[1..];
      if s.order[0] == k {
        assert forall i :: 0 <= i < |rest| ==> rest[i] in others;
        DistinctFits(rest, others);
      }
      hide Shaped, ContentsOf;
      HeldEvicted(codec, lru, EvictedOne(codec, s), k, handle, others);
    }
  }

  lemma {:induction false} HeldPlaced(s: Stores, j: Key, v: Option<Value>, k: Key, handle: nat, others: set<Key>)
    requires Held(s, k, handle, others) && j != k && j in others
    ensures Held(Placed(s, j, v), k, handle, others)
  {
    DropNewer(s.order, j, k, others);
    AppendNewer(Drop(s.order, j), j, k, others);
    hide NewerIn;
  }

  lemma {:induction false} KeysOfFront(items: seq<(Key, Option<Value>)>)
    requires items != []
    ensures items[|items|-1].0 in KeysOfItems(items) && KeysOfItems(items[..|items|-1]) <= KeysOfItems(items)
  {
    var n := |items| - 1;
    forall x | x in KeysOfItems(items[..n]) ensures x in KeysOfItems(items) {
      var i :| 0 <= i < n && items[..n][i].0 == x;
      assert items[i].0 == x;
    }
  }

  lemma {:induction false} HeldPlacedAll(codec: Codec, s: Stores, items: seq<(Key, Option<Value>)>, k: Key, handle: nat, others: set<Key>)
    requires Shaped(codec, s) && Held(s, k, handle, others) && KeysOfItems(items) <= others && k !in KeysOfItems(items)
    ensures Held(PlacedAll(codec, s, items), k, handle, others)
    decreases |items|
  {
    hide Shaped, Held, Placed, Updated, ContentsOf, KeysOfItems;
    if items != [] {
      var n := |items| - 1;
      KeysOfFront(items);
      HeldPlacedAll(codec, s, items[..n], k, handle, others);
      HeldPlaced(PlacedAll(codec, s, items[..n]), items[n].0, items[n].1, k, handle, others);
    }
  }

  lemma {:induction false} HeldLoad(codec: Codec, lru: nat, s: Stores, j: Key, k: Key, handle: nat, others: set<Key>)
    requires Shaped(codec, s) && |s.order| <= lru && Held(s, k, handle, others) && (j == k || j in others) && |others| < lru
    ensures Held(AfterLoad(codec, lru, s, j), k, handle, others)
  {
    assert KeyOk(s, j);
    if j in s.evacuated {
    } else if j in s.cache {
      if j == k {
        LastIsNewest(codec, s, k);
      } else {
        DropNewer(s.order, j, k, others);
        AppendNewer(Drop(s.order, j), j, k, others);
      }
    } else if j in s.compressed && s.compressed[j].Some? {
      var v := codec.unzip(s.compressed[j].value);
      AppendNewer(s.order, j, k, others);
      LoadAnswer(codec, s, j);
      LoadedOk(codec, s, j, v);
      hide Shaped, ContentsOf, NewerIn;
      if !IsEvacuated(v) {
        HeldEvicted(codec, lru, Loaded(s, j, v), k, handle, others);
      }
    }
  }

  lemma {:induction false} HeldCall(codec: Codec, lru: nat, s: Stores, call: Call, k: Key, handle: nat, others: set<Key>)
    requires Shaped(codec, s) && |s.order| <= lru && Held(s, k, handle, others) && |others| < lru
    requires KeysOfCall(call) - {k} <= others && !Replaces(call, k)
    ensures Held(AfterCall(codec, lru, s, call), k, handle, others)
  {
    match call
    case SetItem(j, v) => HeldSet(codec, lru, s, j, v, k, handle, others);
    case GetItem(j) =>
      assert j == k || j in others;
      HeldLoad(codec, lru, s, j, k, handle, others);
    case ChangeItem(j, v) =>
      assert j == k || j in others;
      HeldLoad(codec, lru, s, j, k, handle, others);
    case DelItem(j) => HeldRemoved(s, j, k, handle, others);
    case PopItem(j) =>
      HeldLoad(codec, lru, s, j, k, handle, others);
      HeldRemoved(AfterLoad(codec, lru, s, j), j, k, handle, others);
    case Default(j, v) =>
      HeldKnown(codec, s, k, handle, others);
      if j in s.allKeys {
        assert j == k || j in others;
        HeldLoad(codec, lru, s, j, k, handle, others);
      } else {
        HeldSet(codec, lru, s, j, v, k, handle, others);
      }
    case UpdateAll(items) =>
      HeldPlacedAll(codec, s, items, k, handle, others);
      HeldEvicted(codec, lru, PlacedAll(codec, s, items), k, handle, others);
    case _ =>
  }

  lemma {:induction false} HeldKnown(codec: Codec, s: Stores, k: Key, handle: nat, others: set<Key>)
    requires Shaped(codec, s) && Held(s, k, handle, others)
    ensures k in s.allKeys
  {
    assert KeyOk(s, k);
  }

  lemma {:induction false} HeldSet(codec: Codec, lru: nat, s: Stores, j: Key, v: Option<Value>, k: Key, handle: nat, others: set<Key>)
    requires Shaped(codec, s) && Held(s, k, handle, others) && |others| < lru && j != k && j in others
    ensures Held(AfterSet(codec, lru, s, j, v), k, handle, others)
  {
    PlacedOk(codec, s, j, v);
    hide Shaped, Held, Placed, ContentsOf;
    HeldPlaced(s, j, v, k, handle, others);
    HeldEvicted(codec, lru, Placed(s, j, v), k, handle, others);
  }

  lemma {:induction false} HeldRemoved(s: Stores, j: Key, k: Key, handle: nat, others: set<Key>)
    requires Held(s, k, handle, others) && j != k
    ensures Held(Removed(s, j), k, handle, others)
  {
    DropNewer(s.order, j, k, others);
  }

  /** Calls that use fewer other keys than the cache has room for, and do not replace the entry, leave the object live. */
  lemma {:induction false} StillHeld(codec: Codec, lru: nat, s: Stores, calls: seq<Call>, k: Key, handle: nat, others: set<Key>)
    requires Shaped(codec, s) && |s.order| <= lru && Held(s, k, handle, others) && |others| < lru
    requires KeysOf(calls) - {k} <= others && forall i :: 0 <= i < |calls| ==> !Replaces(calls[i], k)
    ensures Held(AfterCalls(codec, lru, s, calls), k, handle, others)
    decreases |calls|
  {
    if calls != [] {
      var n := |calls| - 1;
      var front := calls[..n];
      assert KeysOf(calls) == KeysOf(front) + KeysOfCall(calls[n]);
      forall i | 0 <= i < |front| ensures !Replaces(front[i], k) {
        assert front[i] == calls[i];
      }
      assert KeysOf(front) - {k} <= others && KeysOfCall(calls[n]) - {k} <= others;
      hide Shaped, Held, AfterCall, Replaces, KeysOfCall, KeysOf;
      StillHeld(codec, lru, s, front, k, handle, others);
      HeldCall(codec, lru, AfterCalls(codec, lru, s, front), calls[n], k, handle, others);
    }
  }

  /** With room for one entry, reading another one takes the object out of the caller's hands. */
  lemma {:induction false} ReadingEvicts(codec: Codec, s: Stores, a: Key, b: Key)
    requires Shaped(codec, s) && s.order == [a] && a in s.cache && !IsEvacuated(s.cache[a])
    requires b != a && b !in s.evacuated && b in s.compressed && s.compressed[b].Some? && !IsEvacuated(codec.unzip(s.compressed[b].value))
    ensures a in s.live && a !in AfterLoad(codec, 1, s, b).live
  {
    var v := codec.unzip(s.compressed[b].value);
    assert KeyOk(s, a) && KeyOk(s, b);
    LoadAnswer(codec, s, b);
    CachedInOrder(codec, s);
    LoadedOk(codec, s, b, v);
    OneEvicted(codec, Loaded(s, b, v), a, b);
  }

  lemma {:induction false} OneEvicted(codec: Codec, s: Stores, a: Key, b: Key)
    requires Shaped(codec, s) && s.order == [a, b] && a in s.cache && !IsEvacuated(s.cache[a])
    ensures Evicted(codec, 1, s) == EvictedOne(codec, s) && a !in EvictedOne(codec, s).live
  {
    EvictedOk(codec, s);
  }

  const EMPTY := Stores({}, map[], map[], map[], [], map[], 0)

  lemma {:induction false} EmptyOk(codec: Codec)
    requires codec.RoundTrips()
    ensures Shaped(codec, EMPTY)
  {
  }

  /** Two entries are stored, the first is read, then the second: a change of the first is lost. A plain dictionary keeps it. */
  lemma {:induction false} LateChangeIsLost(codec: Codec, v: Value, w: Value)
    requires codec.RoundTrips() && !IsEvacuated(v) && !IsEvacuated(w)
    ensures Shaped(codec, EMPTY)
    ensures var s := AfterCalls(codec, 1, EMPTY, [SetItem(1, Some(v)), SetItem(2, Some(w))]);
            var held := AfterLoad(codec, 1, s, 1);
            1 in held.live && 1 !in AfterCalls(codec, 1, held, [GetItem(2)]).live
  {
    hide Shaped, ContentsOf, AfterSet, AfterLoad, AfterCalls, IsEvacuated, Bare;
    EmptyOk(codec);
    FirstStored(codec, v);
    var one := AfterSet(codec, 1, EMPTY, 1, Some(v));
    TwoStored(codec, v, w, one);
    var two := AfterSet(codec, 1, one, 2, Some(w));
    FirstRead(codec, v, w, two);
    var held := AfterLoad(codec, 1, two, 1);
    CallsAre(codec, EMPTY, SetItem(1, Some(v)), SetItem(2, Some(w)));
    CallIs(codec, held, GetItem(2));
    assert !IsEvacuated(codec.unzip(codec.zip(w))) by {
      BareSame(w);
      assert codec.unzip(codec.zip(w)) == Bare(w);
    }
    ReadingEvicts(codec, held, 1, 2);
  }

  lemma {:induction false} FirstStored(codec: Codec, v: Value)
    requires codec.RoundTrips() && !IsEvacuated(v) && Shaped(codec, EMPTY)
    ensures AfterSet(codec, 1, EMPTY, 1, Some(v)) == Stores({1}, map[], map[], map[1 := v], [1], map[1 := 0], 1)
  {
    PlacedOk(codec, EMPTY, 1, Some(v));
    hide Shaped, ContentsOf;
  }

  lemma {:induction false} BareSame(v: Value)
    ensures IsEvacuated(Bare(v)) == IsEvacuated(v)
  {
  }

  lemma {:induction false} CallIs(codec: Codec, s: Stores, c: Call)
    requires Shaped(codec, s) && |s.order| <= 1
    ensures AfterCalls(codec, 1, s, [c]) == AfterCall(codec, 1, s, c)
  {
    assert [c][..0] == [];
    hide AfterCall;
  }

  lemma {:induction false} CallsAre(codec: Codec, s: Stores, c: Call, d: Call)
    requires Shaped(codec, s) && |s.order| <= 1
    ensures Shaped(codec, AfterCall(codec, 1, s, c)) && |AfterCall(codec, 1, s, c).order| <= 1
    ensures AfterCalls(codec, 1, s, [c, d]) == AfterCall(codec, 1, AfterCall(codec, 1, s, c), d)
  {
    AfterCallOk(codec, 1, s, c);
    assert [c, d][..1] == [c];
    CallIs(codec, s, c);
    hide AfterCall;
  }

  lemma {:induction false} TwoStored(codec: Codec, v: Value, w: Value, one: Stores)
    requires codec.RoundTrips() && !IsEvacuated(v) && !IsEvacuated(w)
    requires one == Stores({1}, map[], map[], map[1 := v], [1], map[1 := 0], 1) && Shaped(codec, one)
    ensures AfterSet(codec, 1, one, 2, Some(w))
         == Stores({1, 2}, map[], map[1 := Some(codec.zip(v))], map[2 := w], [2], map[2 := 1], 2)
  {
    hide Shaped, ContentsOf;
    PlacedOk(codec, one, 2, Some(w));
    var placed := Placed(one, 2, Some(w));
    SecondPlaced(v, w, one);
    hide Placed;
    OneEvicted(codec, placed, 1, 2);
    assert placed.cache - {1} == map[2 := w] && placed.live - {1} == map[2 := 1];
  }

  lemma {:induction false} SecondPlaced(v: Value, w: Value, one: Stores)
    requires !IsEvacuated(w) && one == Stores({1}, map[], map[], map[1 := v], [1], map[1 := 0], 1)
    ensures Placed(one, 2, Some(w)) == Stores({1, 2}, map[], map[], map[1 := v, 2 := w], [1, 2], map[1 := 0, 2 := 1], 2)
  {
    assert Drop([1], 2) == [1];
    assert one.cache - {2} == one.cache;
  }

  lemma {:induction false} FirstRead(codec: Codec, v: Value, w: Value, two: Stores)
    requires codec.RoundTrips() && !IsEvacuated(v) && !IsEvacuated(w)
    requires two == Stores({1, 2}, map[], map[1 := Some(codec.zip(v))], map[2 := w], [2], map[2 := 1], 2) && Shaped(codec, two)
    ensures var held := AfterLoad(codec, 1, two, 1);
            && held.order == [1] && 1 in held.cache && !IsEvacuated(held.cache[1]) && 1 in held.live
            && 2 !in held.evacuated && 2 in held.compressed && held.compressed[2] == Some(codec.zip(w))
  {
    var u := codec.unzip(codec.zip(v));
    assert u == Bare(v);
    BareSame(v);
    LoadAnswer(codec, two, 1);
    LoadedOk(codec, two, 1, u);
    var loaded := Loaded(two, 1, u);
    assert loaded.order == [2, 1] && loaded.cache[2] == w && loaded.cache[1] == u;
    hide Shaped, ContentsOf;
    OneEvicted(codec, loaded, 2, 1);
  }

  class CompressedChangeSetDict {
    const codec: Codec
    const lruSize: nat
    var allKeys: set<Key>
    var evacuated: map<Key, Value>
    var compressed: map<Key, Option<int>>
    var cache: map<Key, Value>
    var order: seq<Key>
    /** Which objects the live entries are. */
    var live: map<Key, nat>
    var next: nat

    ghost function St(): Stores
      reads this
    {
      Stores(allKeys, evacuated, compressed, cache, order, live, next)
    }

    /** The stores are consistent, and the cache fits. */
    ghost predicate Valid()
      reads this
    {
      Shaped(codec, St()) && |order| <= lruSize
    }

    ghost function Contents(): map<Key, Option<Value>>
      reads this
    {
      ContentsOf(codec, St())
    }

    constructor (codec: Codec, lruSize: nat)
      requires codec.RoundTrips()
      ensures Valid() && Contents() == map[] && this.codec == codec && this.lruSize == lruSize
      ensures St() == Stores({}, map[], map[], map[], [], map[], 0)
    {
      this.codec, this.lruSize := codec, lruSize;
      allKeys, evacuated, compressed, cache, order, live, next := {}, map[], map[], map[], [], map[], 0;
    }

    /** Store an entry, without evicting. */
    method Place(key: Key, value: Option<Value>)
      requires Shaped(codec, St())
      modifies this
      ensures St() == Placed(old(St()), key, value)
      ensures Shaped(codec, St()) && Contents() == old(Contents())[key := BareEntry(value)]
      ensures key in evacuated <==> value.Some? && value.value.executed && !value.value.hasOps && !value.value.hasIndex
    {
      PlacedOk(codec, St(), key, value);
      hide Shaped, ContentsOf, BareEntry, Drop;
      if value.None? {
        allKeys, evacuated, compressed := allKeys + {key}, evacuated - {key}, compressed[key := None];
        cache, order, live := cache - {key}, Drop(order, key), live - {key};
      } else {
        PlaceObject(key, value.value);
      }
    }

    method PlaceObject(key: Key, value: Value)
      modifies this
      ensures St() == Placed(old(St()), key, Some(value))
    {
      hide Drop;
      var uncached, queue := cache - {key}, Drop(order, key);
      if IsEvacuated(value) {
        evacuated, compressed, cache, order := evacuated[key := value], compressed - {key}, uncached, queue;
      } else {
        evacuated, cache, order := evacuated - {key}, uncached[key := value], queue + [key];
      }
      allKeys, live, next := allKeys + {key}, live[key := next], next + 1;
    }

    /** Move the oldest cached entries out until the cache fits. */
    method EvictLru()
      requires Shaped(codec, St())
      modifies this
      ensures Valid() && Contents() == old(Contents()) && St() == Evicted(codec, lruSize, old(St()))
    {
      while |order| > lruSize
        invariant Shaped(codec, St()) && Evicted(codec, lruSize, St()) == Evicted(codec, lruSize, old(St()))
        decreases |order|
      {
        EvictedOk(codec, St());
        hide Shaped, ContentsOf, EvictedOne;
        EvictOldest();
      }
    }

    method EvictOldest()
      requires order != [] && order[0] in cache
      modifies this
      ensures St() == EvictedOne(codec, old(St())) && |order| < |old(order)|
    {
      var k := order[0];
      var v := cache[k];
      if IsEvacuated(v) {
        cache, order, compressed, evacuated := cache - {k}, order[1..], compressed - {k}, evacuated[k := v];
      } else {
        cache, order, compressed, live := cache - {k}, order[1..], compressed[k := Some(codec.zip(v))], live - {k};
      }
    }

    /** The entry under a key. Reading makes it the newest cached one; an entry that was compressed becomes live again. */
    method Load(key: Key) returns (found: Found)
      requires Valid()
      modifies this
      ensures Valid() && Contents() == old(Contents()) && BareFound(found) == Plain(Contents(), key)
      ensures found == FoundIn(codec, old(St()), key) && St() == AfterLoad(codec, lruSize, old(St()), key)
    {
      ghost var s := St();
      assert ContentsOf(codec, AfterLoad(codec, lruSize, s, key)) == Contents();
      LoadAnswer(codec, s, key);
      hide ContentsOf, KeyOk, Lists, Drop, Loaded, Shaped;
      if key in evacuated {
        return Present(Some(evacuated[key]));
      }
      if key in cache {
        order := Drop(order, key) + [key];
        return Present(Some(cache[key]));
      }
      if key !in compressed {
        return Missing;
      }
      if compressed[key].None? {
        return Present(None);
      }
      var obj := LoadCompressed(key);
      return Present(Some(obj));
    }

    /** A compressed entry becomes live again. */
    method LoadCompressed(key: Key) returns (obj: Value)
      requires Valid() && key !in evacuated && key !in cache && key in compressed && compressed[key].Some?
      modifies this
      ensures obj == codec.unzip(old(compressed)[key].value) && St() == AfterLoad(codec, lruSize, old(St()), key)
    {
      obj := codec.unzip(compressed[key].value);
      LoadAnswer(codec, St(), key);
      LoadedOk(codec, St(), key, obj);
      hide Shaped, ContentsOf;
      if IsEvacuated(obj) {
        compressed, evacuated, live, next := compressed - {key}, evacuated[key := obj], live[key := next], next + 1;
      } else {
        cache, order, live, next := cache[key := obj], order + [key], live[key := next], next + 1;
        EvictLru();
      }
    }

    method Set(key: Key, value: Option<Value>)
      requires Valid()
      modifies this
      ensures Valid() && Contents() == old(Contents())[key := BareEntry(value)] && St() == AfterSet(codec, lruSize, old(St()), key, value)
    {
      Place(key, value);
      EvictLru();
    }

    method Get(key: Key, default: Option<Value>) returns (entry: Option<Value>)
      requires Valid()
      modifies this
      ensures Valid() && Contents() == old(Contents()) && St() == AfterLoad(codec, lruSize, old(St()), key)
      ensures if key in Contents() then BareEntry(entry) == Contents()[key] else entry == default
    {
      var found := Load(key);
      hide Shaped, AfterLoad, FoundIn;
      return if found.Present? then found.entry else default;
    }

    /** The holder of an entry changes the object it was handed. The change is read back if and only if that object is still
        the one under the key; otherwise it is lost. */
    method LateEdit(key: Key, handle: nat, value: Value) returns (kept: bool)
      requires Valid()
      modifies this
      ensures kept <==> key in old(live) && old(live)[key] == handle
      ensures Valid() && Contents() == if kept then old(Contents())[key := Some(Bare(value))] else old(Contents())
      ensures St() == if kept then Changed(old(St()), key, value) else old(St())
    {
      kept := key in live && live[key] == handle;
      if kept {
        ChangedOk(codec, St(), key, value);
        assert KeyOk(St(), key);
        if key in evacuated {
          evacuated := evacuated[key := value];
        } else {
          cache := cache[key := value];
        }
      }
    }

    /** The holder of an entry reads it and changes it at once. Without a cache the change is lost unless the entry has
        executed: what was handed out is already compressed. */
    method Edit(key: Key, value: Value) returns (found: Found)
      requires Valid()
      modifies this
      ensures Valid() && BareFound(found) == old(Plain(Contents(), key)) && found == FoundIn(codec, old(St()), key)
      ensures St() == Changed(AfterLoad(codec, lruSize, old(St()), key), key, value)
      ensures Contents() == if found.Present? && found.entry.Some?
                               && (lruSize > 0 || key in old(evacuated)
                                   || (found.entry.value.executed && !found.entry.value.hasOps && !found.entry.value.hasIndex))
                            then old(Contents())[key := Some(Bare(value))] else old(Contents())
    {
      hide Shaped, ContentsOf, AfterLoad, FoundIn;
      LoadedLive(codec, lruSize, St(), key);
      found := Load(key);
      ChangedOk(codec, St(), key, value);
      if key in evacuated {
        evacuated := evacuated[key := value];
      } else if key in cache {
        cache := cache[key := value];
      }
    }

    /** Deleting a key that is absent changes nothing and, unlike a plain dictionary, is no error. */
    method Delete(key: Key)
      requires Valid()
      modifies this
      ensures Valid() && Contents() == old(Contents()) - {key} && St() == Removed(old(St()), key)
    {
      RemovedOk(codec, St(), key);
      hide Shaped, ContentsOf;
      allKeys, evacuated, compressed := allKeys - {key}, evacuated - {key}, compressed - {key};
      cache, order, live := cache - {key}, Drop(order, key), live - {key};
    }

    method Clear()
      requires Valid()
      modifies this
      ensures Valid() && Contents() == map[] && St() == Emptied(old(St()))
    {
      EmptiedOk(codec, St());
      allKeys, evacuated, compressed, cache, order, live := {}, map[], map[], map[], [], map[];
    }

    /** Take an entry out; the default, if given, stands in for a missing one, otherwise the call fails. */
    method Pop(key: Key, default: Option<Option<Value>>) returns (found: Found)
      requires Valid()
      modifies this
      ensures Valid() && Contents() == old(Contents()) - {key} && St() == AfterCall(codec, lruSize, old(St()), PopItem(key))
      ensures if key in old(Contents()) then BareFound(found) == old(Plain(Contents(), key))
              else found == if default.Some? then Present(default.value) else Missing
    {
      KeysAreContents(codec, St());
      hide Shaped, ContentsOf, AfterLoad, FoundIn;
      if key in allKeys {
        found := Load(key);
        Delete(key);
        return;
      }
      assert Contents() - {key} == Contents();
      return if default.Some? then Present(default.value) else Missing;
    }

    method SetDefault(key: Key, default: Option<Value>) returns (entry: Option<Value>)
      requires Valid()
      modifies this
      ensures Valid() && Contents() == if key in old(Contents()) then old(Contents()) else old(Contents())[key := BareEntry(default)]
      ensures BareEntry(entry) == Contents()[key] && St() == AfterCall(codec, lruSize, old(St()), Default(key, default))
    {
      KeysAreContents(codec, St());
      hide Shaped, ContentsOf, AfterLoad, AfterSet, FoundIn;
      if key in allKeys {
        var found := Load(key);
        return found.entry;
      }
      Set(key, default);
      return default;
    }

    method Update(items: seq<(Key, Option<Value>)>)
      requires Valid()
      modifies this
      ensures Valid() && Contents() == Updated(old(Contents()), items) && St() == AfterCall(codec, lruSize, old(St()), UpdateAll(items))
    {
      hide Shaped, ContentsOf, Placed;
      for i := 0 to |items|
        invariant Shaped(codec, St()) && St() == PlacedAll(codec, old(St()), items[..i])
      {
        assert items[..i + 1][..i] == items[..i];
        Place(items[i].0, items[i].1);
      }
      assert items[..|items|] == items;
      EvictLru();
    }

    /** Compress every cached entry; the entries stay cached. */
    method Flush()
      requires Valid()
      modifies this
      ensures Valid() && Contents() == old(Contents()) && St() == Flushed(codec, old(St()))
    {
      FlushedOk(codec, St());
      CachedInOrder(codec, St());
      ghost var s := St();
      hide Shaped, ContentsOf, Lists, Flushed, CompressedUpTo;
      NothingCompressed(codec, s);
      for i := 0 to |order|
        invariant St() == s.(compressed := CompressedUpTo(codec, s, i))
      {
        CompressNext(codec, s, i);
        compressed := compressed[order[i] := Some(codec.zip(cache[order[i]]))];
      }
      CompressedAll(codec, s);
    }

    /** Pickled and read back elsewhere: the compressed copies carry what was cached. */
    method Pickled() returns (d: CompressedChangeSetDict)
      requires Valid()
      modifies this
      ensures Valid() && Contents() == old(Contents()) && St() == Flushed(codec, old(St()))
      ensures fresh(d) && d.Valid() && d.Contents() == Contents() && d.lruSize == lruSize && d.cache == map[]
    {
      FlushedOk(codec, St());
      ghost var s := St();
      Flush();
      d := new CompressedChangeSetDict(codec, lruSize);
      hide Shaped, ContentsOf;
      d.allKeys, d.evacuated, d.compressed, d.live, d.next := allKeys, evacuated, compressed, live - cache.Keys, next;
      assert d.St() == Flushed(codec, s).(cache := map[], order := [], live := s.live - s.cache.Keys);
    }

    /** A copy holds the same objects. */
    method Copy() returns (d: CompressedChangeSetDict)
      requires Valid()
      ensures fresh(d) && d.Valid() && d.Contents() == Contents() && d.lruSize == lruSize && d.St() == St()
    {
      d := new CompressedChangeSetDict(codec, lruSize);
      d.allKeys, d.evacuated, d.compressed, d.cache, d.order, d.live, d.next := allKeys, evacuated, compressed, cache, order, live, next;
    }

    /** Every entry, read one by one; reading may evict others on the way. */
    method Items(keys: seq<Key>) returns (items: seq<(Key, Found)>)
      requires Valid() && forall i :: 0 <= i < |keys| ==> keys[i] in allKeys
      modifies this
      ensures Valid() && Contents() == old(Contents()) && |items| == |keys|
      ensures forall i :: 0 <= i < |keys| ==> items[i].0 == keys[i] && BareFound(items[i].1) == old(Plain(Contents(), keys[i]))
    {
      items := [];
      for i := 0 to |keys|
        invariant Valid() && Contents() == old(Contents()) && |items| == i
        invariant forall j :: 0 <= j < i ==> items[j].0 == keys[j] && BareFound(items[j].1) == old(Plain(Contents(), keys[j]))
      {
        hide Shaped, ContentsOf, AfterLoad, FoundIn;
        var found := Load(keys[i]);
        items := items + [(keys[i], found)];
      }
    }

    /** One call. */
    method Do(call: Call) returns (found: Found)
      requires Valid() && lruSize > 0
      modifies this
      ensures Valid() && Contents() == PlainAfter(old(Contents()), call) && BareFound(found) == PlainAnswer(old(Contents()), call)
      ensures St() == AfterCall(codec, lruSize, old(St()), call)
    {
      KeysAreContents(codec, St());
      hide Shaped, ContentsOf, AfterLoad, AfterSet, FoundIn, Flushed, PlacedAll, Evicted, Updated;
      found := Missing;
      match call
      case SetItem(k, v) => Set(k, v);
      case GetItem(k) => found := Load(k);
      case ChangeItem(k, v) => found := Edit(k, v);
      case DelItem(k) => Delete(k);
      case PopItem(k) => found := Pop(k, None);
      case Default(k, v) =>
        var entry := SetDefault(k, v);
        found := Present(entry);
      case UpdateAll(items) => Update(items);
      case FlushAll => Flush();
      case ClearAll => Clear();
    }

    /** Any sequence of calls gives the answers and the contents of a plain dictionary, up to process-local references. */
    method Run(calls: seq<Call>) returns (answers: seq<Found>)
      requires Valid() && lruSize > 0
      modifies this
      ensures Valid() && Contents() == PlainRun(old(Contents()), calls) && answers == PlainAnswers(old(Contents()), calls)
      ensures St() == AfterCalls(codec, lruSize, old(St()), calls)
    {
      answers := [];
      for i := 0 to |calls|
        invariant Valid() && Contents() == PlainRun(old(Contents()), calls[..i]) && answers == PlainAnswers(old(Contents()), calls[..i])
        invariant St() == AfterCalls(codec, lruSize, old(St()), calls[..i])
      {
        hide Shaped, ContentsOf, PlainAnswer, PlainAfter, BareFound, AfterCall;
        assert calls[..i + 1][..i] == calls[..i];
        var found := Do(calls[i]);
        answers := answers + [BareFound(found)];
      }
      assert calls[..|calls|] == calls;
    }

    /** Read an entry, make any calls, then change the object that was handed out. A plain dictionary keeps the change unless a
        call replaced or removed the entry. This one keeps it exactly if the object is still live, which it is if besides
        fewer other keys were used than the cache has room for. */
    method HoldAndChange(key: Key, calls: seq<Call>, value: Value) returns (found: Found, answers: seq<Found>, kept: bool)
      requires Valid() && lruSize > 0
      modifies this
      ensures Valid() && BareFound(found) == old(Plain(Contents(), key)) && answers == PlainAnswers(old(Contents()), calls)
      ensures Contents() == if kept then PlainRun(old(Contents()), calls)[key := Some(Bare(value))] else PlainRun(old(Contents()), calls)
      ensures var s := AfterLoad(codec, lruSize, old(St()), key); var t := AfterCalls(codec, lruSize, s, calls);
              kept <==> key in s.live && key in t.live && s.live[key] == t.live[key]
      ensures found.Present? && found.entry.Some? && |KeysOf(calls) - {key}| < lruSize && (forall i :: 0 <= i < |calls| ==> !Replaces(calls[i], key)) ==> kept
    {
      LoadedLive(codec, lruSize, St(), key);
      ghost var s0 := St();
      found := Load(key);
      var held := key in live;
      var handle := if held then live[key] else 0;
      ghost var s := St();
      hide Shaped, ContentsOf, AfterLoad, AfterCall;
      answers := Run(calls);
      kept := false;
      if held {
        kept := LateEdit(key, handle, value);
      }
      if found.Present? && found.entry.Some? && |KeysOf(calls) - {key}| < lruSize && (forall i :: 0 <= i < |calls| ==> !Replaces(calls[i], key)) {
        StillHeld(codec, lruSize, s, calls, key, handle, KeysOf(calls) - {key});
      }
    }
  }

  /** The compressed store once the first `n` cached entries, oldest first, have been written to it. */
  function CompressedUpTo(codec: Codec, s: Stores, n: nat): map<Key, Option<int>>
    requires n <= |s.order| && forall k :: k in s.order ==> k in s.cache
  {
    if n == 0 then s.compressed
    else
      var k := s.order[n - 1];
      assert k in s.order;
      CompressedUpTo(codec, s, n - 1)[k := Some(codec.zip(s.cache[k]))]
  }

  lemma {:induction false} NothingCompressed(codec: Codec, s: Stores)
    requires forall k :: k in s.order ==> k in s.cache
    ensures CompressedUpTo(codec, s, 0) == s.compressed
  {
  }

  lemma {:induction false} CompressNext(codec: Codec, s: Stores, i: nat)
    requires i < |s.order| && forall k :: k in s.order ==> k in s.cache
    ensures s.order[i] in s.cache
    ensures CompressedUpTo(codec, s, i + 1) == CompressedUpTo(codec, s, i)[s.order[i] := Some(codec.zip(s.cache[s.order[i]]))]
  {
    var k := s.order[i];
    assert k in s.order;
  }

  lemma {:induction false} CompressedAt(codec: Codec, s: Stores, n: nat, k: Key)
    requires n <= |s.order| && forall j :: j in s.order ==> j in s.cache
    ensures k in CompressedUpTo(codec, s, n) <==> k in s.compressed || k in s.order[..n]
    ensures k in s.order[..n] ==> CompressedUpTo(codec, s, n)[k] == Some(codec.zip(s.cache[k]))
    ensures k in s.compressed && k !in s.order[..n] ==> CompressedUpTo(codec, s, n)[k] == s.compressed[k]
    decreases n
  {
    if n > 0 {
      CompressedAt(codec, s, n - 1, k);
      assert s.order[..n] == s.order[..n - 1] + [s.order[n - 1]];
      assert s.order[n - 1] in s.order;
    }
  }

  lemma {:induction false} CompressedAll(codec: Codec, s: Stores)
    requires Lists(s.order, s.cache.Keys)
    ensures (forall k :: k in s.order ==> k in s.cache) && CompressedUpTo(codec, s, |s.order|) == Flushed(codec, s).compressed
  {
    assert s.order[..|s.order|] == s.order;
    var m := CompressedUpTo(codec, s, |s.order|);
    forall k ensures (k in m <==> k in Flushed(codec, s).compressed) && (k in m ==> m[k] == Flushed(codec, s).compressed[k]) {
      CompressedAt(codec, s, |s.order|, k);
    }
  }

  lemma {:induction false} KeysAreContents(codec: Codec, s: Stores)
    ensures ContentsOf(codec, s).Keys == s.allKeys
  {
  }

  lemma {:induction false} NotEmptyCache(codec: Codec, s: Stores, k: Key)
    requires Shaped(codec, s) && k in s.cache
    ensures |s.order| > 0
  {
    assert k in s.order;
  }

  /** Where a read finds its answer. */
  lemma {:induction false} LoadAnswer(codec: Codec, s: Stores, k: Key)
    requires Shaped(codec, s)
    ensures k in s.evacuated ==> Plain(ContentsOf(codec, s), k) == Present(Some(Bare(s.evacuated[k])))
    ensures k in s.cache ==> Plain(ContentsOf(codec, s), k) == Present(Some(Bare(s.cache[k])))
    ensures k !in s.evacuated && k !in s.cache && k !in s.compressed ==> Plain(ContentsOf(codec, s), k) == Missing
    ensures k !in s.evacuated && k !in s.cache && k in s.compressed ==> Plain(ContentsOf(codec, s), k) == Present(Answer(codec, s, k))
    ensures k !in s.evacuated && k !in s.cache && k in s.compressed && s.compressed[k].Some? ==>
              var v := codec.unzip(s.compressed[k].value); Answer(codec, s, k) == Some(v) && Bare(v) == v
    ensures k !in s.evacuated && k !in s.cache && k in s.compressed && s.compressed[k].None? ==> Answer(codec, s, k) == None
  {
    assert KeyOk(s, k);
    if k in s.compressed && s.compressed[k].Some? {
      var b := s.compressed[k].value;
      assert codec.unzip(b) == Bare(codec.unzip(b));
    }
  }
}
