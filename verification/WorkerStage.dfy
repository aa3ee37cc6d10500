/** One parsing stage on forked workers (main.py, `_run_worker_stage`): batches are handed out ahead, results stream back
    through a bounded queue, workers may die, and what never came back is parsed again. Every interleaving of reads,
    deaths and ingestion is a run of `Round`. */
module WorkerStage {
  import opened Basics

  type File = int

  datatype Batch = Batch(id: int, files: seq<File>)

  /** Batches sent to a worker in advance, and results buffered for the ingesting thread. */
  const TASKS_AHEAD := 2
  const PREFETCH_DEPTH := 8

  /** Where a batch is. `Hand` is the reader's hand: read from a worker, not yet in the result queue. */
  datatype Place = Pending | Assigned(worker: nat) | Hand | Queued | Received | Suspect

  datatype Stage = Stage(pending: seq<int>, queues: seq<seq<int>>, open: set<nat>, stopped: set<nat>, done: set<nat>,
                         initFailed: set<nat>, hand: Option<int>, frames: seq<int>, received: set<int>, suspects: seq<int>)

  predicate Holds(s: Stage, b: int, p: Place) {
    match p
    case Pending => b in s.pending
    case Assigned(w) => w < |s.queues| && b in s.queues[w]
    case Hand => s.hand == Some(b)
    case Queued => b in s.frames
    case Received => b in s.received
    case Suspect => b in s.suspects
  }

  /** `place` says where each batch is: nowhere else, and once there. */
  ghost predicate Located(s: Stage, place: map<int, Place>) {
    && (forall b, p :: Holds(s, b, p) <==> b in place && place[b] == p)
    && Distinct(s.pending) && Distinct(s.frames) && Distinct(s.suspects)
    && forall w :: 0 <= w < |s.queues| ==> Distinct(s.queues[w])
  }

  /** No batch is lost or duplicated. */
  lemma {:induction false} ExactlyOnePlace(s: Stage, place: map<int, Place>, b: int)
    requires Located(s, place) && b in place
    ensures exists p :: Holds(s, b, p) && forall q :: Holds(s, b, q) ==> q == p
  {
    assert Holds(s, b, place[b]);
  }

  ghost predicate Workers(s: Stage) {
    && s.open <= Crew(|s.queues|) && s.done <= Crew(|s.queues|) && s.initFailed <= Crew(|s.queues|)
    && |s.frames| <= PREFETCH_DEPTH
  }

  function Crew(n: nat): (r: set<nat>)
    ensures forall w: nat :: w in r <==> w < n
  {
    if n == 0 then {} else Crew(n - 1) + {n - 1}
  }

  // ---------------------------------------------------------------- progress

  function Weight(p: Place): nat {
    match p
    case Pending => 4
    case Assigned(_) => 3
    case Hand => 2
    case Queued => 1
    case _ => 0
  }

  predicate Covers(ids: seq<int>, place: map<int, Place>) {
    forall i :: 0 <= i < |ids| ==> ids[i] in place
  }

  function Total(ids: seq<int>, place: map<int, Place>): nat
    requires Covers(ids, place)
  {
    if ids == [] then 0 else Weight(place[ids[|ids|-1]]) + Total(ids[..|ids|-1], place)
  }

  /** Moves only bring batches forward, and a real move shows in the total. */
  lemma {:induction false} TotalFalls(ids: seq<int>, place: map<int, Place>, place': map<int, Place>)
    requires place'.Keys == place.Keys && Covers(ids, place)
    requires forall b :: b in place ==> Weight(place'[b]) <= Weight(place[b])
    ensures Total(ids, place') <= Total(ids, place)
    ensures (exists i :: 0 <= i < |ids| && Weight(place'[ids[i]]) < Weight(place[ids[i]])) ==> Total(ids, place') < Total(ids, place)
    decreases |ids|
  {
    if ids != [] {
      var n := |ids| - 1;
      TotalFalls(ids[..n], place, place');
      forall i | 0 <= i < n && Weight(place'[ids[i]]) < Weight(place[ids[i]]) ensures Total(ids, place') < Total(ids, place) {
        assert ids[..n][i] == ids[i];
      }
    }
  }

  // ---------------------------------------------------------------- single moves

  lemma {:induction false} Without(q: seq<int>, k: nat)
    requires Distinct(q) && k < |q|
    ensures Distinct(q[..k] + q[k + 1..])
    ensures forall b :: b in q[..k] + q[k + 1..] <==> b in q && b != q[k]
  {
    var r := q[..k] + q[k + 1..];
    forall b | b in q && b != q[k] ensures b in r {
      var i :| 0 <= i < |q| && q[i] == b;
      assert r[if i < k then i else i - 1] == b;
    }
  }

  lemma {:induction false} With(q: seq<int>, b: int)
    requires Distinct(q) && b !in q
    ensures Distinct(q + [b]) && forall c :: c in q + [b] <==> c in q || c == b
  {
  }

  lemma {:induction false} Tail(q: seq<int>)
    requires Distinct(q) && q != []
    ensures Distinct(q[1..]) && forall b :: b in q[1..] <==> b in q && b != q[0]
  {
    Without(q, 0);
    assert q[..0] + q[1..] == q[1..];
  }

  /** Moving one batch moves its place. */
  lemma {:induction false} Moved(s: Stage, place: map<int, Place>, s': Stage, b: int, q: Place)
    requires Located(s, place) && b in place && place[b] != q
    requires forall c, p :: Holds(s', c, p) <==> if c == b then p == q else Holds(s, c, p)
    requires Distinct(s'.pending) && Distinct(s'.frames) && Distinct(s'.suspects)
    requires forall w :: 0 <= w < |s'.queues| ==> Distinct(s'.queues[w])
    ensures Located(s', place[b := q])
  {
    forall c, p ensures Holds(s', c, p) <==> c in place[b := q] && place[b := q][c] == p {
      assert Holds(s, c, p) <==> c in place && place[c] == p;
    }
  }

  /** Sending a worker its next batch, or its stop frame once no batch is left. */
  function Sent(s: Stage, w: nat): Stage
    requires w < |s.queues|
  {
    if w in s.stopped then s
    else if s.pending == [] then s.(stopped := s.stopped + {w})
    else s.(pending := s.pending[1..], queues := s.queues[w := s.queues[w] + [s.pending[0]]])
  }

  /** A send to a dead worker fails unnoticed: the batch stays with it until its end of file. */
  method Dispatch(s: Stage, w: nat, ghost place: map<int, Place>) returns (s': Stage, ghost place': map<int, Place>)
    requires Located(s, place) && Workers(s) && w < |s.queues|
    ensures Located(s', place') && Workers(s') && place'.Keys == place.Keys && s' == Sent(s, w)
    ensures forall b :: b in place ==> place'[b] == place[b] || (place[b] == Pending && place'[b] == Assigned(w))
    ensures w in s.stopped ==> place' == place
  {
    s', place' := s, place;
    if w in s.stopped {
      return;
    }
    if s.pending == [] {
      s' := s.(stopped := s.stopped + {w});
      SameHolds(s, place, s');
      return;
    }
    var b := s.pending[0];
    s' := s.(pending := s.pending[1..], queues := s.queues[w := s.queues[w] + [b]]);
    place' := place[b := Assigned(w)];
    DispatchMoves(s, place, w, s');
  }

  lemma {:induction false} SameHolds(s: Stage, place: map<int, Place>, s': Stage)
    requires Located(s, place) && s' == s.(open := s'.open, stopped := s'.stopped, done := s'.done, initFailed := s'.initFailed)
    ensures Located(s', place)
  {
    forall b, p ensures Holds(s', b, p) <==> b in place && place[b] == p {
      assert Holds(s', b, p) <==> Holds(s, b, p);
    }
  }

  lemma {:induction false} DispatchMoves(s: Stage, place: map<int, Place>, w: nat, s': Stage)
    requires Located(s, place) && w < |s.queues| && s.pending != []
    requires s' == s.(pending := s.pending[1..], queues := s.queues[w := s.queues[w] + [s.pending[0]]])
    ensures s.pending[0] in place && place[s.pending[0]] == Pending && Located(s', place[s.pending[0] := Assigned(w)])
  {
    var b := s.pending[0];
    assert Holds(s, b, Pending);
    Tail(s.pending);
    assert b !in s.queues[w] by {
      assert Holds(s, b, Assigned(w)) <==> b in s.queues[w];
    }
    With(s.queues[w], b);
    forall c, p ensures Holds(s', c, p) <==> if c == b then p == Assigned(w) else Holds(s, c, p) {
      assert Holds(s, b, p) <==> p == Pending;
    }
    Moved(s, place, s', b, Assigned(w));
  }

  /** A result: the batch leaves its worker, and the worker is kept supplied. */
  function Taken(s: Stage, w: nat, k: nat): Stage
    requires w < |s.queues| && k < |s.queues[w]|
  {
    Sent(s.(queues := s.queues[w := s.queues[w][..k] + s.queues[w][k + 1..]], hand := Some(s.queues[w][k])), w)
  }

  method TakeResult(s: Stage, w: nat, k: nat, ghost place: map<int, Place>) returns (s': Stage, ghost place': map<int, Place>)
    requires Located(s, place) && Workers(s) && s.hand.None? && w < |s.queues| && k < |s.queues[w]|
    ensures Located(s', place') && Workers(s') && place'.Keys == place.Keys && s' == Taken(s, w, k)
    ensures s.queues[w][k] in place && place[s.queues[w][k]] == Assigned(w) && place'[s.queues[w][k]] == Hand
    ensures forall b :: b in place ==> Weight(place'[b]) <= Weight(place[b])
  {
    var b := s.queues[w][k];
    var s1 := s.(queues := s.queues[w := s.queues[w][..k] + s.queues[w][k + 1..]], hand := Some(b));
    ResultMoves(s, place, w, k, s1);
    ghost var place1 := place[b := Hand];
    hide Located, Holds;
    s', place' := Dispatch(s1, w, place1);
  }

  lemma {:induction false} ResultMoves(s: Stage, place: map<int, Place>, w: nat, k: nat, s': Stage)
    requires Located(s, place) && s.hand.None? && w < |s.queues| && k < |s.queues[w]|
    requires s' == s.(queues := s.queues[w := s.queues[w][..k] + s.queues[w][k + 1..]], hand := Some(s.queues[w][k]))
    ensures s.queues[w][k] in place && place[s.queues[w][k]] == Assigned(w) && Located(s', place[s.queues[w][k] := Hand])
  {
    var b := s.queues[w][k];
    assert Holds(s, b, Assigned(w));
    Without(s.queues[w], k);
    forall c, p ensures Holds(s', c, p) <==> if c == b then p == Hand else Holds(s, c, p) {
      assert Holds(s, b, p) <==> p == Assigned(w);
      assert !Holds(s, c, Hand);
    }
    Moved(s, place, s', b, Hand);
  }

  /** The batch in hand enters the bounded result queue. */
  method Offer(s: Stage, ghost place: map<int, Place>) returns (s': Stage, ghost place': map<int, Place>)
    requires Located(s, place) && Workers(s) && s.hand.Some? && |s.frames| < PREFETCH_DEPTH
    ensures s.hand.value in place && place[s.hand.value] == Hand && place' == place[s.hand.value := Queued]
    ensures Located(s', place') && Workers(s') && s' == s.(hand := None, frames := s.frames + [s.hand.value])
  {
    var b := s.hand.value;
    s', place' := s.(hand := None, frames := s.frames + [b]), place[b := Queued];
    assert Holds(s, b, Hand);
    assert b !in s.frames by {
      assert Holds(s, b, Queued) <==> b in s.frames;
    }
    With(s.frames, b);
    forall c, p ensures Holds(s', c, p) <==> if c == b then p == Queued else Holds(s, c, p) {
      assert Holds(s, b, p) <==> p == Hand;
    }
    Moved(s, place, s', b, Queued);
  }

  /** The ingesting thread takes the oldest result. */
  method Receive(s: Stage, ghost place: map<int, Place>) returns (s': Stage, ghost place': map<int, Place>)
    requires Located(s, place) && Workers(s) && s.frames != []
    ensures s.frames[0] in place && place[s.frames[0]] == Queued && place' == place[s.frames[0] := Received]
    ensures Located(s', place') && Workers(s') && s.frames[0] !in s.received
    ensures s' == s.(frames := s.frames[1..], received := s.received + {s.frames[0]})
  {
    var b := s.frames[0];
    s', place' := s.(frames := s.frames[1..], received := s.received + {b}), place[b := Received];
    assert Holds(s, b, Queued);
    Tail(s.frames);
    forall c, p ensures Holds(s', c, p) <==> if c == b then p == Received else Holds(s, c, p) {
      assert Holds(s, b, p) <==> p == Queued;
    }
    assert !Holds(s, b, Received);
    Moved(s, place, s', b, Received);
  }

  // ---------------------------------------------------------------- a worker's end of file

  /** The batches of a dead worker: the one it was parsing becomes suspect, the others are pending again. */
  function Returned(s: Stage, w: nat): seq<int>
    requires w < |s.queues| && s.queues[w] != []
  {
    if w in s.initFailed then s.queues[w] else s.queues[w][1..]
  }

  function Recovered(s: Stage, w: nat): Stage
    requires w < |s.queues| && s.queues[w] != []
  {
    s.(open := s.open - {w}, pending := Returned(s, w) + s.pending, queues := s.queues[w := []],
       suspects := if w in s.initFailed then s.suspects else s.suspects + [s.queues[w][0]])
  }

  function PlaceAfter(s: Stage, w: nat, place: map<int, Place>): map<int, Place>
    requires w < |s.queues| && s.queues[w] != []
  {
    map b | b in place ::
      if place[b] != Assigned(w) then place[b] else if w !in s.initFailed && b == s.queues[w][0] then Suspect else Pending
  }

  lemma {:induction false} JoinDistinct(q: seq<int>, r: seq<int>)
    requires Distinct(q) && Distinct(r) && forall b :: b in q ==> b !in r
    ensures Distinct(q + r) && forall b :: b in q + r <==> b in q || b in r
  {
    forall i, j | 0 <= i < j < |q + r| ensures (q + r)[i] != (q + r)[j] {
      if i < |q| <= j {
        assert q[i] in q && r[j - |q|] in r;
      }
    }
  }

  lemma {:induction false} DiedDistinct(s: Stage, w: nat, place: map<int, Place>)
    requires Located(s, place) && w < |s.queues| && s.queues[w] != []
    ensures Distinct(Recovered(s, w).pending) && Distinct(Recovered(s, w).suspects)
    ensures forall b :: b in Returned(s, w) <==> b in s.queues[w] && (w in s.initFailed || b != s.queues[w][0])
  {
    Tail(s.queues[w]);
    forall b | b in s.queues[w] ensures b !in s.pending && b !in s.suspects {
      assert Holds(s, b, Assigned(w));
      assert !Holds(s, b, Pending) && !Holds(s, b, Suspect);
    }
    JoinDistinct(Returned(s, w), s.pending);
    With(s.suspects, s.queues[w][0]);
  }

  lemma {:induction false} DiedMoves(s: Stage, w: nat, place: map<int, Place>)
    requires Located(s, place) && w < |s.queues| && s.queues[w] != []
    ensures Located(Recovered(s, w), PlaceAfter(s, w, place))
  {
    DiedDistinct(s, w, place);
    var s', place' := Recovered(s, w), PlaceAfter(s, w, place);
    forall b, p ensures Holds(s', b, p) <==> b in place' && place'[b] == p {
      assert Holds(s, b, p) <==> b in place && place[b] == p;
      assert Holds(s, b, Assigned(w)) <==> b in place && place[b] == Assigned(w);
      assert Holds(s, b, Assigned(w)) <==> b in s.queues[w];
      if p == Pending || p == Suspect {
        DiedHolds(s, w, place, b, p);
      }
    }
  }

  lemma {:induction false} DiedHolds(s: Stage, w: nat, place: map<int, Place>, b: int, p: Place)
    requires Located(s, place) && w < |s.queues| && s.queues[w] != [] && (p == Pending || p == Suspect)
    requires forall c :: c in Returned(s, w) <==> c in s.queues[w] && (w in s.initFailed || c != s.queues[w][0])
    ensures Holds(Recovered(s, w), b, p) <==> Holds(s, b, p) || (b in s.queues[w] && (p == Suspect <==> w !in s.initFailed && b == s.queues[w][0]))
  {
    assert s.queues[w][0] in s.queues[w];
  }

  /** A worker that was not told to stop always has batches ahead. */
  ghost predicate Supplied(s: Stage) {
    forall w :: w in s.open && w !in s.stopped && w < |s.queues| ==> |s.queues[w]| >= TASKS_AHEAD
  }

  function Ended(s: Stage, w: nat): Stage
    requires w < |s.queues|
  {
    if w in s.done || s.queues[w] == [] then s.(open := s.open - {w}) else Recovered(s, w)
  }

  /** A worker's pipe closed, and its batches are recovered. Sending more to the workers with room sends nothing: a worker
      with room has been told to stop. */
  method EndOfFile(s: Stage, w: nat, ghost place: map<int, Place>) returns (s': Stage, ghost place': map<int, Place>)
    requires Located(s, place) && Workers(s) && Supplied(s) && w in s.open
    ensures Located(s', place') && Workers(s') && Supplied(s') && place'.Keys == place.Keys && s' == Ended(s, w)
    ensures forall b :: b in place && place[b] != Pending && place[b] != Assigned(w) ==> place'[b] == place[b]
    ensures w !in s'.open && s'.received == s.received && s'.frames == s.frames
    ensures w !in s.done && s.queues[w] != [] ==>
              && s'.queues[w] == []
              && s'.suspects == (if w in s.initFailed then s.suspects else s.suspects + [s.queues[w][0]])
              && s'.pending == (if w in s.initFailed then s.queues[w] else s.queues[w][1..]) + s.pending
    ensures w in s.done ==> s'.suspects == s.suspects && s'.pending == s.pending
  {
    if w in s.done || s.queues[w] == [] {
      s', place' := s.(open := s.open - {w}), place;
      SameHolds(s, place, s');
      return;
    }
    DiedMoves(s, w, place);
    s', place' := Recovered(s, w), PlaceAfter(s, w, place);
    ghost var place1 := place';
    for other := 0 to |s.queues|
      invariant Located(s', place') && Workers(s') && s' == Recovered(s, w) && place' == place1
    {
      hide Located, PlaceAfter;
      if other in s'.open && |s'.queues[other]| < TASKS_AHEAD {
        s', place' := Dispatch(s', other, place');
      }
    }
  }

  // ---------------------------------------------------------------- ingestion

  /** Files handed to `ingest`, in order, and files covered by an error entry. */
  datatype Ledger = Ledger(ingested: seq<File>, errors: set<File>)

  /** The batches' files: none is in two batches, or twice in one. */
  ghost predicate FilesOnce(files: map<int, seq<File>>) {
    && (forall b :: b in files ==> Distinct(files[b]))
    && forall b, c, f :: b in files && c in files && f in files[b] && f in files[c] ==> b == c
  }

  predicate OfBatches(files: map<int, seq<File>>, ids: set<int>, f: File) {
    exists b :: b in ids && b in files && f in files[b]
  }

  /** Every file of a received batch was ingested or is covered by an error; no file was ingested twice. */
  ghost predicate LedgerOk(files: map<int, seq<File>>, received: set<int>, l: Ledger) {
    && Distinct(l.ingested)
    && (forall f :: f in l.ingested ==> OfBatches(files, received, f))
    && (forall f :: f in l.errors ==> OfBatches(files, received, f))
    && forall b, f :: b in received && b in files && f in files[b] ==> f in l.ingested || f in l.errors
  }

  function Keep(files: seq<File>, parsed: set<File>): (r: seq<File>)
    ensures forall f :: f in r <==> f in files && f in parsed
    ensures Distinct(files) ==> Distinct(r)
  {
    if files == [] then []
    else
      var n := |files| - 1;
      var r := Keep(files[..n], parsed);
      assert files == files[..n] + [files[n]];
      assert Distinct(files) ==> Distinct(files[..n]) && files[n] !in files[..n];
      if files[n] in parsed then r + [files[n]] else r
  }

  /** What a received result turns out to be: unreadable, or the files it parsed and whether ingesting them raised. */
  datatype Outcome = Unreadable | Readable(parsed: set<File>, raised: bool)

  /** Ingesting one received batch, and the entries of the error list. */
  function Noted(of: seq<File>, l: Ledger, o: Outcome): Ledger {
    match o
    case Unreadable => Ledger(l.ingested, l.errors + (set f | f in of))
    case Readable(parsed, raised) => Ledger(l.ingested + Keep(of, parsed), l.errors + (set f | f in of && (f !in parsed || raised)))
  }

  /** A readable result's parsed files are ingested, once each and in order, and no others; an error is noted for exactly the
      files of an unreadable result, those that were not parsed, and all files if ingesting raised. */
  method Ingest(files: map<int, seq<File>>, b: int, l: Ledger, o: Outcome, ghost received: set<int>) returns (l': Ledger)
    requires FilesOnce(files) && LedgerOk(files, received, l) && b in files && b !in received
    ensures l' == Noted(files[b], l, o) && LedgerOk(files, received + {b}, l')
    ensures l.ingested <= l'.ingested && Distinct(l'.ingested)
    ensures forall f :: f in l'.ingested <==> f in l.ingested || (o.Readable? && f in files[b] && f in o.parsed)
    ensures o.Unreadable? ==> l'.ingested == l.ingested
    ensures forall f :: f in l'.errors <==> f in l.errors || (f in files[b] && (o.Unreadable? || f !in o.parsed || o.raised))
  {
    var of := files[b];
    if o.Unreadable? {
      l' := Ledger(l.ingested, l.errors + (set f | f in of));
    } else {
      var batchErrors := set f | f in of && f !in o.parsed;
      var fatal := if o.raised then set f | f in of else {};
      l' := Ledger(l.ingested + Keep(of, o.parsed), l.errors + batchErrors + fatal);
    }
    IngestOk(files, b, l, received, if o.Unreadable? then [] else Keep(of, o.parsed), l');
    assert l'.errors == Noted(of, l, o).errors;
  }

  lemma {:induction false} IngestOk(files: map<int, seq<File>>, b: int, l: Ledger, received: set<int>, more: seq<File>, l': Ledger)
    requires FilesOnce(files) && LedgerOk(files, received, l) && b in files && b !in received
    requires Distinct(more) && l'.ingested == l.ingested + more && (forall f :: f in more ==> f in files[b])
    requires forall f :: f in l.errors ==> f in l'.errors
    requires forall f :: f in l'.errors && f !in l.errors ==> f in files[b]
    requires forall f :: f in files[b] ==> f in more || f in l'.errors
    ensures LedgerOk(files, received + {b}, l')
  {
    forall f | OfBatches(files, received, f) ensures OfBatches(files, received + {b}, f) {
      var c :| c in received && c in files && f in files[c];
      assert c in received + {b};
    }
    forall f | f in l.ingested ensures f !in more {
      assert OfBatches(files, received, f);
    }
    JoinDistinct(l.ingested, more);
    forall f | f in files[b] ensures OfBatches(files, received + {b}, f) {
      assert b in received + {b};
    }
  }

  // ---------------------------------------------------------------- one round

  lemma {:induction false} AllPending(ids: seq<int>, n: nat, s: Stage, place: map<int, Place>)
    requires Distinct(ids) && s == Stage(ids, seq(n, _ => []), Crew(n), {}, {}, {}, None, [], {}, [])
    requires place == map b | b in ids :: Pending
    ensures Located(s, place) && Workers(s)
  {
    forall b, p ensures Holds(s, b, p) <==> b in place && place[b] == p {
    }
  }

  lemma {:induction false} Advanced(ids: seq<int>, place: map<int, Place>, place': map<int, Place>, b: int)
    requires Covers(ids, place) && b in ids && b in place && place'.Keys == place.Keys
    requires (forall c :: c in place ==> Weight(place'[c]) <= Weight(place[c])) && Weight(place'[b]) < Weight(place[b])
    ensures Covers(ids, place') && Total(ids, place') < Total(ids, place)
  {
    TotalFalls(ids, place, place');
    var i :| 0 <= i < |ids| && ids[i] == b;
  }

  lemma {:induction false} OneLess<T>(s: set<T>, t: set<T>, x: T)
    requires x in s && x !in t
    ensures |s - (t + {x})| < |s - t|
  {
    assert s - (t + {x}) == (s - t) - {x};
  }

  lemma {:induction false} OneClosed<T>(s: set<T>, x: T)
    requires x in s
    ensures |s - {x}| < |s|
  {
  }

  /** What the parent can see happen. A worker sends results, says that it finished, or closes its pipe after that or after
      failing to start. Being killed, raising, and failing to start are its faults. */
  datatype Event =
    | Result(worker: nat, at: nat)
    | Finished(worker: nat)
    | Closed(worker: nat)
    | Killed(worker: nat)
    | Raised(worker: nat)
    | NotStarted(worker: nat)
    | Offered
    | Taking(outcome: Outcome)

  predicate Fault(e: Event) {
    e.Killed? || e.Raised? || e.NotStarted?
  }

  /** No worker fails, and a result that is taken is read, parsed and ingested in full. */
  predicate CleanAt(files: map<int, seq<File>>, s: Stage, e: Event) {
    !Fault(e) && (e.Taking? && s.frames != [] && s.frames[0] in files ==> InFull(files[s.frames[0]], e.outcome))
  }

  predicate InFull(of: seq<File>, o: Outcome) {
    o.Readable? && !o.raised && forall i :: 0 <= i < |of| ==> of[i] in o.parsed
  }

  /** The reader listens, and the worker may still send something. */
  predicate Speaks(s: Stage, w: nat) {
    s.hand.None? && w in s.open && w < |s.queues| && w !in s.done && w !in s.initFailed
  }

  /** A worker finishes only once it was told to stop and has returned all its batches. */
  predicate Enabled(s: Stage, e: Event) {
    match e
    case Result(w, k) => Speaks(s, w) && k < |s.queues[w]|
    case Finished(w) => Speaks(s, w) && w in s.stopped && s.queues[w] == []
    case Closed(w) => s.hand.None? && w in s.open && w < |s.queues| && (w in s.done || w in s.initFailed)
    case Killed(w) => Speaks(s, w)
    case Raised(w) => Speaks(s, w)
    case NotStarted(w) => Speaks(s, w)
    case Offered => s.hand.Some? && |s.frames| < PREFETCH_DEPTH
    case Taking(_) => s.frames != []
  }

  function After(s: Stage, e: Event): Stage
    requires Enabled(s, e)
  {
    match e
    case Result(w, k) => Taken(s, w, k)
    case Finished(w) => s.(done := s.done + {w})
    case Closed(w) => Ended(s, w)
    case Killed(w) => Ended(s, w)
    case Raised(w) => s.(done := s.done + {w})
    case NotStarted(w) => s.(initFailed := s.initFailed + {w})
    case Offered => s.(hand := None, frames := s.frames + [s.hand.value])
    case Taking(_) => s.(frames := s.frames[1..], received := s.received + {s.frames[0]})
  }

  predicate Legal(s: Stage, events: seq<Event>)
    decreases events, 0
  {
    events == [] || (Legal(s, events[..|events|-1]) && Enabled(AfterAll(s, events[..|events|-1]), events[|events|-1]))
  }

  function AfterAll(s: Stage, events: seq<Event>): Stage
    requires Legal(s, events)
    decreases events, 1
  {
    if events == [] then s else After(AfterAll(s, events[..|events|-1]), events[|events|-1])
  }

  /** Some frame of the worker is due that is no fault of its own: a live worker is never left waiting for a task. */
  lemma {:induction false} NeverStarved(s: Stage, w: nat)
    requires Supplied(s) && Workers(s) && w in s.open && s.hand.None?
    ensures exists e: Event :: !Fault(e) && (e.Result? || e.Finished? || e.Closed?) && e.worker == w && Enabled(s, e)
  {
    assert w < |s.queues|;
    if w in s.done || w in s.initFailed {
      assert Enabled(s, Closed(w));
    } else if s.queues[w] != [] {
      assert Enabled(s, Result(w, 0));
    } else {
      assert Enabled(s, Finished(w));
    }
  }

  predicate Over(s: Stage) {
    s.open == {} && s.hand.None? && s.frames == []
  }

  /** Until the round is over something happens without any fault. */
  lemma {:induction false} NoDeadlock(s: Stage)
    requires Supplied(s) && Workers(s) && !Over(s)
    ensures exists e :: Enabled(s, e) && !Fault(e)
  {
    if s.frames != [] {
      assert Enabled(s, Taking(Unreadable));
    } else if s.hand.Some? {
      assert Enabled(s, Offered);
    } else {
      var w := Member(s.open);
      NeverStarved(s, w);
    }
  }

  /** The state of a round between two steps. */
  ghost predicate RoundOk(ids: seq<int>, files: map<int, seq<File>>, n: nat, s: Stage, place: map<int, Place>, l: Ledger) {
    && Located(s, place) && Workers(s) && Supplied(s) && |s.queues| == n
    && Covers(ids, place) && (forall b :: b in place ==> b in ids)
    && LedgerOk(files, s.received, l)
  }

  /** Fewer open pipes, or batches further on, or a worker's last word heard. */
  ghost predicate Closer(ids: seq<int>, n: nat, s: Stage, place: map<int, Place>, s': Stage, place': map<int, Place>)
    requires Covers(ids, place) && Covers(ids, place')
  {
    || |s'.open| < |s.open|
    || (s'.open == s.open && Total(ids, place') < Total(ids, place))
    || (s'.open == s.open && place' == place
        && |Crew(n) - s'.done| + |Crew(n) - s'.initFailed| < |Crew(n) - s.done| + |Crew(n) - s.initFailed|)
  }

  lemma {:induction false} TakenSupplied(s: Stage, w: nat, k: nat)
    requires Supplied(s) && w < |s.queues| && k < |s.queues[w]|
    ensures Supplied(Taken(s, w, k)) && Taken(s, w, k).open == s.open && |Taken(s, w, k).queues| == |s.queues|
    ensures Taken(s, w, k).received == s.received
  {
  }

  method ReadResult(ids: seq<int>, ghost files: map<int, seq<File>>, n: nat, s: Stage, w: nat, k: nat, ghost place: map<int, Place>, ghost l: Ledger)
    returns (s': Stage, ghost place': map<int, Place>)
    requires RoundOk(ids, files, n, s, place, l) && Enabled(s, Result(w, k))
    ensures RoundOk(ids, files, n, s', place', l) && Closer(ids, n, s, place, s', place') && s' == After(s, Result(w, k))
  {
    ghost var b := s.queues[w][k];
    s', place' := TakeResult(s, w, k, place);
    TakenSupplied(s, w, k);
    hide Located, Workers, LedgerOk, Supplied, Taken;
    Advanced(ids, place, place', b);
  }

  method ReadEnd(ids: seq<int>, ghost files: map<int, seq<File>>, n: nat, s: Stage, w: nat, ghost place: map<int, Place>, ghost l: Ledger)
    returns (s': Stage, ghost place': map<int, Place>)
    requires RoundOk(ids, files, n, s, place, l) && s.hand.None? && w in s.open
    ensures RoundOk(ids, files, n, s', place', l) && Closer(ids, n, s, place, s', place') && w < |s.queues| && s' == Ended(s, w)
  {
    s', place' := EndOfFile(s, w, place);
    hide Located, Workers, LedgerOk, Supplied;
    OneClosed(s.open, w);
  }

  /** A worker's last frame, or its failure to start. */
  method ReadLast(ids: seq<int>, ghost files: map<int, seq<File>>, n: nat, s: Stage, w: nat, initFailed: bool, ghost place: map<int, Place>, ghost l: Ledger)
    returns (s': Stage)
    requires RoundOk(ids, files, n, s, place, l) && Speaks(s, w)
    ensures RoundOk(ids, files, n, s', place, l) && Closer(ids, n, s, place, s', place)
    ensures s' == if initFailed then s.(initFailed := s.initFailed + {w}) else s.(done := s.done + {w})
  {
    s' := if initFailed then s.(initFailed := s.initFailed + {w}) else s.(done := s.done + {w});
    SameHolds(s, place, s');
    assert Supplied(s');
    hide Located, LedgerOk, Covers, Total, Supplied;
    OneLess(Crew(n), if initFailed then s.initFailed else s.done, w);
  }

  lemma {:induction false} Running(ids: seq<int>, files: map<int, seq<File>>, n: nat, s: Stage, place: map<int, Place>, l: Ledger)
    requires RoundOk(ids, files, n, s, place, l)
    ensures Supplied(s) && Workers(s)
  {
    hide Located, LedgerOk;
  }

  /** The reader takes a frame of a worker, or finds its pipe closed: whatever it is that the worker sent or did. */
  method Read(ids: seq<int>, ghost files: map<int, seq<File>>, n: nat, s: Stage, e: Event, ghost place: map<int, Place>, ghost l: Ledger)
    returns (s': Stage, ghost place': map<int, Place>)
    requires RoundOk(ids, files, n, s, place, l) && Enabled(s, e) && !e.Offered? && !e.Taking?
    ensures RoundOk(ids, files, n, s', place', l) && Closer(ids, n, s, place, s', place') && s' == After(s, e)
  {
    hide RoundOk, Closer, Taken, Ended;
    place' := place;
    match e
    case Result(w, k) => s', place' := ReadResult(ids, files, n, s, w, k, place, l);
    case Finished(w) => s' := ReadLast(ids, files, n, s, w, false, place, l);
    case Closed(w) => s', place' := ReadEnd(ids, files, n, s, w, place, l);
    case Killed(w) => s', place' := ReadEnd(ids, files, n, s, w, place, l);
    case Raised(w) => s' := ReadLast(ids, files, n, s, w, false, place, l);
    case NotStarted(w) => s' := ReadLast(ids, files, n, s, w, true, place, l);
  }

  /** What happens next: anything that can. */
  method SomeEvent(s: Stage) returns (e: Event)
    requires Supplied(s) && Workers(s) && !Over(s)
    ensures Enabled(s, e)
  {
    e := *;
    if Enabled(s, e) {
      return;
    }
    if s.frames != [] {
      return Taking(Unreadable);
    }
    if s.hand.Some? {
      return Offered;
    }
    var w := Pick(s.open);
    return if w in s.done || w in s.initFailed then Closed(w) else if s.queues[w] != [] then Result(w, 0) else Finished(w);
  }

  method OfferNext(ids: seq<int>, ghost files: map<int, seq<File>>, n: nat, s: Stage, ghost place: map<int, Place>, ghost l: Ledger)
    returns (s': Stage, ghost place': map<int, Place>)
    requires RoundOk(ids, files, n, s, place, l) && Enabled(s, Offered)
    ensures RoundOk(ids, files, n, s', place', l) && Closer(ids, n, s, place, s', place') && s' == After(s, Offered)
  {
    ghost var b := s.hand.value;
    s', place' := Offer(s, place);
    hide Located, Workers, LedgerOk;
    Advanced(ids, place, place', b);
  }

  method ReceiveNext(ids: seq<int>, files: map<int, seq<File>>, n: nat, s: Stage, ghost place: map<int, Place>, l: Ledger, o: Outcome)
    returns (s': Stage, ghost place': map<int, Place>, l': Ledger)
    requires RoundOk(ids, files, n, s, place, l) && Enabled(s, Taking(o)) && FilesOnce(files) && forall b :: b in ids ==> b in files
    ensures RoundOk(ids, files, n, s', place', l') && Closer(ids, n, s, place, s', place') && s' == After(s, Taking(o))
    ensures s.frames[0] in files && l' == Noted(files[s.frames[0]], l, o)
  {
    var b := s.frames[0];
    s', place' := Receive(s, place);
    hide Located, Workers, LedgerOk, FilesOnce, Noted;
    Advanced(ids, place, place', b);
    l' := Ingest(files, b, l, o, s.received);
  }

  /** What the ledger holds after the events. */
  function LedgerAfter(files: map<int, seq<File>>, s: Stage, l: Ledger, e: Event): Ledger
    requires Enabled(s, e)
  {
    if e.Taking? then Noted(if s.frames[0] in files then files[s.frames[0]] else [], l, e.outcome) else l
  }

  function LedgerOf(files: map<int, seq<File>>, start: Stage, events: seq<Event>): Ledger
    requires Legal(start, events)
  {
    if events == [] then Ledger([], {})
    else
      var front := events[..|events|-1];
      LedgerAfter(files, AfterAll(start, front), LedgerOf(files, start, front), events[|events|-1])
  }

  /** A legal run in which nothing goes wrong. */
  predicate AllClean(files: map<int, seq<File>>, start: Stage, events: seq<Event>) {
    Legal(start, events)
    && (events == []
        || (AllClean(files, start, events[..|events|-1])
            && CleanAt(files, AfterAll(start, events[..|events|-1]), events[|events|-1])))
  }

  predicate Reached(start: Stage, events: seq<Event>, s: Stage) {
    Legal(start, events) && s == AfterAll(start, events)
  }

  predicate Kept(files: map<int, seq<File>>, start: Stage, events: seq<Event>, l: Ledger) {
    Legal(start, events) && l == LedgerOf(files, start, events)
  }

  lemma {:induction false} OneMoreEvent(start: Stage, events: seq<Event>, s: Stage, e: Event)
    requires Reached(start, events, s) && Enabled(s, e)
    ensures Reached(start, events + [e], After(s, e))
    ensures forall files, l :: Kept(files, start, events, l) ==> Kept(files, start, events + [e], LedgerAfter(files, s, l, e))
  {
    assert (events + [e])[..|events|] == events;
  }

  /** One round over `n` workers, in any interleaving of the reader and the ingesting thread: whatever happens is a legal
      sequence of events from the first supply to the end of all pipes. */
  method Round(ids: seq<int>, files: map<int, seq<File>>, n: nat)
    returns (received: set<int>, suspects: seq<int>, l: Ledger, noneStarted: bool, ghost s: Stage, ghost place: map<int, Place>, ghost events: seq<Event>)
    requires n > 0 && Distinct(ids) && FilesOnce(files) && forall b :: b in files <==> b in ids
    ensures Located(s, place) && (forall b :: b in place <==> b in ids)
    ensures Reached(Primed(ids, n), events, s) && Kept(files, Primed(ids, n), events, l) && Over(s)
    ensures received == s.received && suspects == s.suspects && LedgerOk(files, received, l)
    ensures noneStarted <==> s.initFailed == Crew(n)
  {
    l, events := Ledger([], {}), [];
    var st: Stage;
    st, place := Supply(ids, files, n, l);
    while !Over(st)
      invariant RoundOk(ids, files, n, st, place, l)
      invariant Reached(Primed(ids, n), events, st) && Kept(files, Primed(ids, n), events, l)
      decreases |st.open|, Total(ids, place), |Crew(n) - st.done| + |Crew(n) - st.initFailed|
    {
      hide RoundOk, FilesOnce, Primed, After, Enabled, Reached, Kept, LedgerAfter, Total, Over, LedgerOk, Located, Distinct, Supplied, Workers;
      Running(ids, files, n, st, place, l);
      ghost var before := st;
      var e := SomeEvent(st);
      st, place, l := Next(ids, files, n, st, e, place, l);
      OneMoreEvent(Primed(ids, n), events, before, e);
      events := events + [e];
    }
    received, suspects, noneStarted, s := st.received, st.suspects, st.initFailed == Crew(n), st;
  }

  /** A step of the reader or of the ingesting thread, for anything that can happen. */
  method Next(ids: seq<int>, files: map<int, seq<File>>, n: nat, s: Stage, e: Event, ghost place: map<int, Place>, l: Ledger)
    returns (s': Stage, ghost place': map<int, Place>, l': Ledger)
    requires RoundOk(ids, files, n, s, place, l) && Enabled(s, e) && FilesOnce(files) && forall b :: b in ids ==> b in files
    ensures RoundOk(ids, files, n, s', place', l') && Closer(ids, n, s, place, s', place') && s' == After(s, e)
    ensures l' == LedgerAfter(files, s, l, e)
  {
    l' := l;
    hide RoundOk, FilesOnce, After, Closer, Enabled;
    match e
    case Offered => s', place' := OfferNext(ids, files, n, s, place, l);
    case Taking(o) => s', place', l' := ReceiveNext(ids, files, n, s, place, l, o);
    case _ => s', place' := Read(ids, files, n, s, e, place, l);
  }

  function Start(ids: seq<int>, n: nat): Stage {
    Stage(ids, seq(n, _ => []), Crew(n), {}, {}, {}, None, [], {}, [])
  }

  /** The first `n` workers are sent something, in order. */
  function SentTo(s: Stage, n: nat): Stage
    requires n <= |s.queues|
    ensures |SentTo(s, n).queues| == |s.queues|
  {
    if n == 0 then s else Sent(SentTo(s, n - 1), n - 1)
  }

  function SentAhead(s: Stage, ahead: nat): Stage
    ensures |SentAhead(s, ahead).queues| == |s.queues|
  {
    if ahead == 0 then s else SentTo(SentAhead(s, ahead - 1), |s.queues|)
  }

  /** The stage once every worker was sent its first batches. */
  function Primed(ids: seq<int>, n: nat): Stage {
    SentAhead(Start(ids, n), TASKS_AHEAD)
  }

  /** After `a` passes and `w` workers of the next one. */
  ghost predicate SuppliedUpTo(s: Stage, a: nat, w: nat) {
    forall v :: 0 <= v < |s.queues| && v !in s.stopped ==> |s.queues[v]| >= if v < w then a + 1 else a
  }

  /** Every worker gets its first batches. */
  method Supply(ids: seq<int>, ghost files: map<int, seq<File>>, n: nat, ghost l: Ledger) returns (s: Stage, ghost place: map<int, Place>)
    requires Distinct(ids) && l == Ledger([], {})
    ensures s == Primed(ids, n) && Supplied(s)
    ensures RoundOk(ids, files, n, s, place, l) && forall b :: b in place <==> b in ids
  {
    s, place := Start(ids, n), map b | b in ids :: Pending;
    AllPending(ids, n, s, place);
    for ahead := 0 to TASKS_AHEAD
      invariant Located(s, place) && Workers(s) && |s.queues| == n && s.received == {}
      invariant forall b :: b in place <==> b in ids
      invariant SuppliedUpTo(s, ahead, 0) && s == SentAhead(Start(ids, n), ahead)
    {
      for w := 0 to n
        invariant Located(s, place) && Workers(s) && |s.queues| == n && s.received == {}
        invariant forall b :: b in place <==> b in ids
        invariant SuppliedUpTo(s, ahead, w) && s == SentTo(SentAhead(Start(ids, n), ahead), w)
      {
        hide Located, Workers, SentAhead, SuppliedUpTo;
        SuppliedNext(s, ahead, w);
        s, place := Dispatch(s, w, place);
      }
      hide Located, Workers, SentTo;
    }
    hide Located, Workers, SentAhead, RoundOk, SuppliedUpTo;
    PrimedOk(ids, files, n, s, place, l);
  }

  lemma {:induction false} PrimedOk(ids: seq<int>, files: map<int, seq<File>>, n: nat, s: Stage, place: map<int, Place>, l: Ledger)
    requires Located(s, place) && Workers(s) && |s.queues| == n && s.received == {} && l == Ledger([], {})
    requires (forall b :: b in place <==> b in ids) && SuppliedUpTo(s, TASKS_AHEAD, 0)
    ensures RoundOk(ids, files, n, s, place, l)
  {
    hide Located;
    forall i | 0 <= i < |ids| ensures ids[i] in place {
      var b := ids[i];
      assert b in ids;
    }
    assert forall w :: 0 <= w < |s.queues| && w !in s.stopped ==> |s.queues[w]| >= TASKS_AHEAD;
  }

  lemma {:induction false} SuppliedNext(s: Stage, a: nat, w: nat)
    requires SuppliedUpTo(s, a, w) && w < |s.queues|
    ensures SuppliedUpTo(Sent(s, w), a, w + 1) && Sent(s, w).received == s.received
  {
  }

  // ---------------------------------------------------------------- a round in which nothing goes wrong

  /** Nobody failed: a pipe is closed only after its worker's last word, which a worker says when it was told to stop and has
      returned its batches; and it is told to stop only when no batch is left. */
  ghost predicate Calm(s: Stage, n: nat) {
    && |s.queues| == n && s.suspects == [] && s.initFailed == {}
    && (forall w :: 0 <= w < n && w !in s.open ==> w in s.done)
    && (forall w :: 0 <= w < n && w in s.done ==> w in s.stopped && s.queues[w] == [])
    && (s.stopped != {} ==> s.pending == [])
  }

  lemma {:induction false} SentCalm(s: Stage, n: nat, w: nat)
    requires Calm(s, n) && w < n
    ensures Calm(Sent(s, w), n) && Sent(s, w).received == s.received
  {
  }

  lemma {:induction false} SentToCalm(s: Stage, n: nat, m: nat)
    requires Calm(s, n) && m <= n
    ensures Calm(SentTo(s, m), n) && SentTo(s, m).received == s.received
  {
    if m > 0 {
      SentToCalm(s, n, m - 1);
      hide Calm, Sent;
      CalmSize(s, n);
      SentCalm(SentTo(s, m - 1), n, m - 1);
    }
  }

  lemma {:induction false} CalmSize(s: Stage, n: nat)
    requires Calm(s, n)
    ensures |s.queues| == n
  {
  }

  lemma {:induction false} PrimedCalm(ids: seq<int>, n: nat)
    ensures Calm(Primed(ids, n), n) && Primed(ids, n).received == {}
  {
    var s := Start(ids, n);
    assert Calm(s, n);
    assert s.received == {};
    hide Calm, Start;
    CalmSize(s, n);
    SentToCalm(s, n, n);
    var s1 := SentTo(s, n);
    CalmSize(s1, n);
    SentToCalm(s1, n, n);
    hide SentTo;
    assert SentAhead(s, 0) == s && SentAhead(s, 1) == s1 && SentAhead(s, 2) == SentTo(s1, n);
  }

  lemma {:induction false} CalmStep(s: Stage, n: nat, e: Event)
    requires Calm(s, n) && Enabled(s, e) && !Fault(e)
    ensures Calm(After(s, e), n)
  {
    if e.Result? {
      var w, k := e.worker, e.at;
      SentCalm(s.(queues := s.queues[w := s.queues[w][..k] + s.queues[w][k + 1..]], hand := Some(s.queues[w][k])), n, w);
      hide Sent;
    }
  }

  /** What such a run ingested: all files of the batches received, and no error. */
  ghost predicate InFullLedger(files: map<int, seq<File>>, received: set<int>, l: Ledger) {
    l.errors == {} && forall b, f :: b in received && b in files && f in files[b] ==> f in l.ingested
  }

  lemma {:induction false} CleanLedgerStep(files: map<int, seq<File>>, s: Stage, l: Ledger, e: Event)
    requires InFullLedger(files, s.received, l) && Enabled(s, e) && CleanAt(files, s, e)
    ensures InFullLedger(files, After(s, e).received, LedgerAfter(files, s, l, e))
  {
    if e.Taking? {
      var of := if s.frames[0] in files then files[s.frames[0]] else [];
      forall f | f in of ensures e.outcome.Readable? && !e.outcome.raised && f in e.outcome.parsed {
        var i :| 0 <= i < |of| && of[i] == f;
      }
    }
  }

  /** What holds all along a run in which nothing goes wrong. */
  lemma {:induction false} CleanRun(files: map<int, seq<File>>, ids: seq<int>, n: nat, events: seq<Event>)
    requires AllClean(files, Primed(ids, n), events)
    ensures Legal(Primed(ids, n), events) && Calm(AfterAll(Primed(ids, n), events), n)
    ensures InFullLedger(files, AfterAll(Primed(ids, n), events).received, LedgerOf(files, Primed(ids, n), events))
    decreases |events|
  {
    hide Calm, Enabled, After, CleanAt, LedgerAfter, Primed;
    var start := Primed(ids, n);
    if events == [] {
      PrimedCalm(ids, n);
    } else {
      var front, last := events[..|events|-1], events[|events|-1];
      CleanRun(files, ids, n, front);
      var s := AfterAll(start, front);
      NoFault(files, s, last);
      CalmStep(s, n, last);
      CleanLedgerStep(files, s, LedgerOf(files, start, front), last);
    }
  }

  lemma {:induction false} NoFault(files: map<int, seq<File>>, s: Stage, e: Event)
    requires CleanAt(files, s, e)
    ensures !Fault(e)
  {
  }

  /** It ends with every batch received. */
  lemma {:induction false} CleanEnd(s: Stage, n: nat, place: map<int, Place>, b: int)
    requires Located(s, place) && Calm(s, n) && n > 0 && Over(s) && b in place
    ensures b in s.received && s.suspects == [] && s.initFailed != Crew(n)
  {
    assert 0 in s.done && 0 in s.stopped && s.pending == [] && 0 in Crew(n);
    assert Holds(s, b, place[b]);
  }

  // ---------------------------------------------------------------- batches of a retry

  function Ids(batches: seq<Batch>): (r: seq<int>)
    ensures |r| == |batches| && forall i :: 0 <= i < |batches| ==> r[i] == batches[i].id
  {
    seq(|batches|, i requires 0 <= i < |batches| => batches[i].id)
  }

  /** No file is in two batches, or twice in one. */
  ghost predicate Disjoint(batches: seq<Batch>) {
    && (forall i :: 0 <= i < |batches| ==> Distinct(batches[i].files))
    && forall i, j, f :: 0 <= i < |batches| && 0 <= j < |batches| && f in batches[i].files && f in batches[j].files ==> i == j
  }

  ghost predicate BatchesOk(batches: seq<Batch>) {
    Distinct(Ids(batches)) && Disjoint(batches)
  }

  predicate AnyOf(batches: seq<Batch>, f: File) {
    exists i :: 0 <= i < |batches| && f in batches[i].files
  }

  function FilesOf(batches: seq<Batch>): map<int, seq<File>> {
    if batches == [] then map[]
    else var n := |batches| - 1; FilesOf(batches[..n])[batches[n].id := batches[n].files]
  }

  lemma {:induction false} FilesAt(batches: seq<Batch>)
    requires Distinct(Ids(batches))
    ensures forall b :: b in FilesOf(batches) <==> b in Ids(batches)
    ensures forall i :: 0 <= i < |batches| ==> batches[i].id in FilesOf(batches) && FilesOf(batches)[batches[i].id] == batches[i].files
    decreases |batches|
  {
    if batches != [] {
      var n := |batches| - 1;
      assert Ids(batches[..n]) == Ids(batches)[..n];
      FilesAt(batches[..n]);
      assert Ids(batches) == Ids(batches[..n]) + [batches[n].id];
      forall i | 0 <= i < n ensures batches[i].id in FilesOf(batches) && FilesOf(batches)[batches[i].id] == batches[i].files {
        assert batches[..n][i] == batches[i];
        assert Ids(batches)[i] != Ids(batches)[n];
      }
    }
  }

  lemma {:induction false} FilesOfOk(batches: seq<Batch>)
    requires BatchesOk(batches)
    ensures FilesOnce(FilesOf(batches)) && forall b :: b in FilesOf(batches) <==> b in Ids(batches)
    ensures forall i :: 0 <= i < |batches| ==> batches[i].id in FilesOf(batches) && FilesOf(batches)[batches[i].id] == batches[i].files
  {
    FilesAt(batches);
    var files := FilesOf(batches);
    hide FilesOf;
    forall b | b in files ensures exists i :: 0 <= i < |batches| && batches[i].id == b && files[b] == batches[i].files {
      var i :| 0 <= i < |batches| && Ids(batches)[i] == b;
      assert batches[i].id == b;
    }
  }

  /** The batches whose ids are not in `out`, in order. */
  function Left(batches: seq<Batch>, out: set<int>): seq<Batch> {
    if batches == [] then []
    else
      var n := |batches| - 1;
      if batches[n].id in out then Left(batches[..n], out) else Left(batches[..n], out) + [batches[n]]
  }

  lemma {:induction false} LeftIn(batches: seq<Batch>, out: set<int>)
    ensures forall b :: b in Left(batches, out) <==> b in batches && b.id !in out
    ensures |Left(batches, out)| <= |batches|
    ensures forall i :: 0 <= i < |batches| && batches[i].id in out ==> |Left(batches, out)| < |batches|
    decreases |batches|
  {
    if batches != [] {
      var n := |batches| - 1;
      LeftIn(batches[..n], out);
      assert batches == batches[..n] + [batches[n]];
      forall i | 0 <= i < n && batches[i].id in out ensures |Left(batches, out)| < |batches| {
        assert batches[..n][i] == batches[i];
      }
    }
  }

  lemma {:induction false} LeftDisjoint(batches: seq<Batch>, out: set<int>)
    requires Disjoint(batches)
    ensures Disjoint(Left(batches, out))
    decreases |batches|
  {
    if batches != [] {
      var n := |batches| - 1;
      var rest := Left(batches[..n], out);
      LeftDisjoint(batches[..n], out);
      LeftIn(batches[..n], out);
      forall i, f | 0 <= i < |rest| && f in rest[i].files ensures f !in batches[n].files {
        LeftFrom(batches, out, i, f);
      }
      hide Left;
      DisjointJoin(rest, [batches[n]]);
    }
  }

  lemma {:induction false} LeftFrom(batches: seq<Batch>, out: set<int>, i: nat, f: File)
    requires batches != [] && Disjoint(batches) && i < |Left(batches[..|batches|-1], out)| && f in Left(batches[..|batches|-1], out)[i].files
    ensures f !in batches[|batches|-1].files
  {
    var n := |batches| - 1;
    var rest := Left(batches[..n], out);
    LeftIn(batches[..n], out);
    hide Left;
    assert rest[i] in batches[..n];
    var j :| 0 <= j < n && batches[..n][j] == rest[i];
    assert batches[j] == rest[i];
  }

  lemma {:induction false} DisjointJoin(a: seq<Batch>, b: seq<Batch>)
    requires Disjoint(a) && Disjoint(b)
    requires forall i, j, f :: 0 <= i < |a| && 0 <= j < |b| && f in a[i].files ==> f !in b[j].files
    ensures Disjoint(a + b)
  {
  }

  /** The files of the suspect batches. */
  function SuspectFiles(files: map<int, seq<File>>, suspects: seq<int>): seq<File>
    requires forall i :: 0 <= i < |suspects| ==> suspects[i] in files
  {
    if suspects == [] then []
    else var n := |suspects| - 1; SuspectFiles(files, suspects[..n]) + files[suspects[n]]
  }

  lemma {:induction false} SuspectFilesIn(files: map<int, seq<File>>, suspects: seq<int>, f: File)
    requires forall i :: 0 <= i < |suspects| ==> suspects[i] in files
    ensures f in SuspectFiles(files, suspects) <==> exists i :: 0 <= i < |suspects| && f in files[suspects[i]]
    decreases |suspects|
  {
    if suspects != [] {
      var n := |suspects| - 1;
      SuspectFilesIn(files, suspects[..n], f);
      var before := SuspectFiles(files, suspects[..n]);
      assert SuspectFiles(files, suspects) == before + files[suspects[n]];
      hide SuspectFiles;
      if f in before {
        var i :| 0 <= i < n && f in files[suspects[..n][i]];
        assert f in files[suspects[i]];
      }
      if i :| 0 <= i < n && f in files[suspects[i]] {
        assert f in files[suspects[..n][i]];
      }
    }
  }

  lemma {:induction false} SuspectFilesOk(files: map<int, seq<File>>, suspects: seq<int>)
    requires FilesOnce(files) && Distinct(suspects) && forall i :: 0 <= i < |suspects| ==> suspects[i] in files
    ensures Distinct(SuspectFiles(files, suspects))
    ensures forall f :: f in SuspectFiles(files, suspects) <==> exists i :: 0 <= i < |suspects| && f in files[suspects[i]]
    decreases |suspects|
  {
    forall f ensures f in SuspectFiles(files, suspects) <==> exists i :: 0 <= i < |suspects| && f in files[suspects[i]] {
      SuspectFilesIn(files, suspects, f);
    }
    if suspects != [] {
      var n := |suspects| - 1;
      var front, last := suspects[..n], suspects[n];
      SuspectFilesOk(files, front);
      assert last in files && Distinct(files[last]);
      forall f | f in SuspectFiles(files, front) ensures f !in files[last] {
        var i :| 0 <= i < n && f in files[front[i]];
        assert front[i] == suspects[i] != last && front[i] in files;
      }
      hide FilesOnce;
      JoinDistinct(SuspectFiles(files, front), files[last]);
    }
  }

  /** One batch per file. */
  function Singles(files: seq<File>): (r: seq<Batch>)
    ensures |r| == |files| && forall i :: 0 <= i < |files| ==> r[i].files == [files[i]]
  {
    seq(|files|, i requires 0 <= i < |files| => Batch(i, [files[i]]))
  }

  function Renumber(batches: seq<Batch>, first: int): (r: seq<Batch>)
    ensures |r| == |batches| && forall i :: 0 <= i < |batches| ==> r[i] == Batch(first + i, batches[i].files)
  {
    seq(|batches|, i requires 0 <= i < |batches| => Batch(first + i, batches[i].files))
  }

  function NextId(batches: seq<Batch>): int {
    if batches == [] then 0
    else
      var n := |batches| - 1;
      var before := NextId(batches[..n]);
      if batches[n].id >= before then batches[n].id + 1 else before
  }

  /** What is parsed again: the suspects' files one by one on their first failure, and the batches nobody parsed, as they are. */
  function RetryBatches(batches: seq<Batch>, received: set<int>, suspects: seq<int>, retryLost: bool): seq<Batch>
    requires forall i :: 0 <= i < |suspects| ==> suspects[i] in FilesOf(batches)
  {
    Renumber((if retryLost then Singles(SuspectFiles(FilesOf(batches), suspects)) else [])
             + Left(batches, received + (set b | b in suspects)), NextId(batches))
  }

  /** How a round ended. */
  ghost predicate RoundEnd(batches: seq<Batch>, received: set<int>, suspects: seq<int>) {
    && Distinct(suspects)
    && (forall i :: 0 <= i < |suspects| ==> suspects[i] in FilesOf(batches) && suspects[i] !in received)
    && forall b :: b in received ==> b in FilesOf(batches)
  }

  lemma {:induction false} RetryOk(batches: seq<Batch>, received: set<int>, suspects: seq<int>, retryLost: bool)
    requires BatchesOk(batches) && RoundEnd(batches, received, suspects)
    ensures BatchesOk(RetryBatches(batches, received, suspects, retryLost))
  {
    var files := FilesOf(batches);
    var out := received + (set b | b in suspects);
    var singles, left := if retryLost then Singles(SuspectFiles(files, suspects)) else [], Left(batches, out);
    LeftDisjoint(batches, out);
    SinglesDisjoint(batches, suspects);
    assert RetryBatches(batches, received, suspects, retryLost) == Renumber(singles + left, NextId(batches));
    hide FilesOf, Left, SuspectFiles, RetryBatches, NextId, Singles;
    forall i, j, f | 0 <= i < |singles| && 0 <= j < |left| && f in singles[i].files ensures f !in left[j].files {
      assert singles[i] == Singles(SuspectFiles(files, suspects))[i];
      SingleNotLeft(batches, received, suspects, i, j, f);
    }
    hide BatchesOk;
    DisjointJoin(singles, left);
    RenumberOk(singles + left, NextId(batches));
  }

  lemma {:induction false} SinglesDisjoint(batches: seq<Batch>, suspects: seq<int>)
    requires BatchesOk(batches) && Distinct(suspects) && forall i :: 0 <= i < |suspects| ==> suspects[i] in FilesOf(batches)
    ensures Disjoint(Singles(SuspectFiles(FilesOf(batches), suspects)))
  {
    FilesOfOk(batches);
    SuspectFilesOk(FilesOf(batches), suspects);
    var files := SuspectFiles(FilesOf(batches), suspects);
    hide BatchesOk, FilesOf, SuspectFiles, FilesOnce;
    assert Distinct(files);
  }

  lemma {:induction false} SingleNotLeft(batches: seq<Batch>, received: set<int>, suspects: seq<int>, i: nat, j: nat, f: File)
    requires BatchesOk(batches) && Distinct(suspects) && forall k :: 0 <= k < |suspects| ==> suspects[k] in FilesOf(batches)
    requires i < |SuspectFiles(FilesOf(batches), suspects)| && j < |Left(batches, received + (set b | b in suspects))|
    requires f in Singles(SuspectFiles(FilesOf(batches), suspects))[i].files
    ensures f !in Left(batches, received + (set b | b in suspects))[j].files
  {
    var files := FilesOf(batches);
    var out := received + (set b | b in suspects);
    var left := Left(batches, out);
    FilesOfOk(batches);
    SuspectFilesIn(files, suspects, f);
    LeftIn(batches, out);
    hide BatchesOk, FilesOf, SuspectFiles, Left;
    var k :| 0 <= k < |suspects| && f in files[suspects[k]];
    assert left[j] in left && suspects[k] in out;
    assert left[j] in batches && left[j].id in files && files[left[j].id] == left[j].files;
  }

  lemma {:induction false} RenumberOk(batches: seq<Batch>, first: int)
    requires Disjoint(batches)
    ensures BatchesOk(Renumber(batches, first))
  {
  }

  /** In a batch that is parsed again. */
  predicate Again(files: map<int, seq<File>>, received: set<int>, suspects: seq<int>, retryLost: bool, f: File) {
    exists b :: b in files && b !in received && (retryLost || b !in suspects) && f in files[b]
  }

  /** In a batch that is given up. */
  predicate Gone(files: map<int, seq<File>>, suspects: seq<int>, retryLost: bool, f: File)
    requires forall i :: 0 <= i < |suspects| ==> suspects[i] in files
  {
    !retryLost && exists i :: 0 <= i < |suspects| && f in files[suspects[i]]
  }

  lemma {:induction false} AnyOfJoin(a: seq<Batch>, b: seq<Batch>, first: int, f: File)
    ensures AnyOf(Renumber(a + b, first), f) <==> AnyOf(a, f) || AnyOf(b, f)
  {
    var c := Renumber(a + b, first);
    if AnyOf(a, f) {
      var i :| 0 <= i < |a| && f in a[i].files;
      assert f in c[i].files;
    }
    if AnyOf(b, f) {
      var i :| 0 <= i < |b| && f in b[i].files;
      assert f in c[|a| + i].files;
    }
  }

  lemma {:induction false} AnyOfSingles(files: seq<File>, f: File)
    ensures AnyOf(Singles(files), f) <==> f in files
  {
    if f in files {
      var i :| 0 <= i < |files| && files[i] == f;
      assert f in Singles(files)[i].files;
    }
  }

  lemma {:induction false} AnyOfLeft(batches: seq<Batch>, out: set<int>, f: File)
    requires BatchesOk(batches)
    ensures AnyOf(Left(batches, out), f) <==> exists b :: b in FilesOf(batches) && b !in out && f in FilesOf(batches)[b]
  {
    var files, left := FilesOf(batches), Left(batches, out);
    FilesOfOk(batches);
    LeftIn(batches, out);
    hide FilesOf, Left, BatchesOk;
    if AnyOf(left, f) {
      var i :| 0 <= i < |left| && f in left[i].files;
      assert left[i] in left;
      var j :| 0 <= j < |batches| && batches[j] == left[i];
      assert batches[j].id in files;
    }
    if b :| b in files && b !in out && f in files[b] {
      var j :| 0 <= j < |batches| && Ids(batches)[j] == b;
      assert batches[j] in left;
      var i :| 0 <= i < |left| && left[i] == batches[j];
    }
  }

  /** The files parsed again: those of unreceived batches, without the suspects' on their second failure. */
  lemma {:induction false} RetryFiles(batches: seq<Batch>, received: set<int>, suspects: seq<int>, retryLost: bool, f: File)
    requires BatchesOk(batches) && RoundEnd(batches, received, suspects)
    ensures AnyOf(RetryBatches(batches, received, suspects, retryLost), f) <==> Again(FilesOf(batches), received, suspects, retryLost, f)
  {
    var files := FilesOf(batches);
    var out := received + (set b | b in suspects);
    var singles, left := if retryLost then Singles(SuspectFiles(files, suspects)) else [], Left(batches, out);
    FilesOfOk(batches);
    SuspectFilesOk(files, suspects);
    AnyOfJoin(singles, left, NextId(batches), f);
    AnyOfSingles(SuspectFiles(files, suspects), f);
    AnyOfLeft(batches, out, f);
    assert AnyOf(RetryBatches(batches, received, suspects, retryLost), f) <==> AnyOf(singles, f) || AnyOf(left, f);
    hide FilesOf, Left, SuspectFiles, RetryBatches, BatchesOk, AnyOf, Singles, FilesOnce, Again, Distinct;
    AgainIs(files, received, suspects, retryLost, f);
  }

  lemma {:induction false} AgainIs(files: map<int, seq<File>>, received: set<int>, suspects: seq<int>, retryLost: bool, f: File)
    requires forall i :: 0 <= i < |suspects| ==> suspects[i] in files && suspects[i] !in received
    ensures Again(files, received, suspects, retryLost, f) <==>
            || (retryLost && exists i :: 0 <= i < |suspects| && f in files[suspects[i]])
            || (exists b :: b in files && b !in received + (set b | b in suspects) && f in files[b])
  {
    var out := received + (set b | b in suspects);
    if Again(files, received, suspects, retryLost, f) {
      var b :| b in files && b !in received && (retryLost || b !in suspects) && f in files[b];
      if b in suspects {
        var i :| 0 <= i < |suspects| && suspects[i] == b;
        assert retryLost && 0 <= i < |suspects| && f in files[suspects[i]];
      } else {
        assert b in files && b !in out && f in files[b];
      }
    } else {
      forall i | 0 <= i < |suspects| && retryLost ensures f !in files[suspects[i]] {
        var b := suspects[i];
        assert b in files && b !in received;
      }
      assert forall b :: b in files && b !in received && (retryLost || b !in suspects) ==> f !in files[b];
      forall b | b in files && b !in out ensures f !in files[b] {
        assert b !in received && b !in suspects;
      }
    }
  }

  // ---------------------------------------------------------------- the stage

  /** What a stage reports. `raised` says that no worker could start, which the stage raises after ingesting what it had. */
  datatype StageResult = StageResult(ledger: Ledger, lost: seq<File>, raised: bool)

  /** Nothing is ingested twice; unless the stage raised, every file was ingested or is reported; lost files are reported
      and were not ingested. */
  ghost predicate StageOk(batches: seq<Batch>, r: StageResult) {
    && Distinct(r.ledger.ingested)
    && (forall f :: f in r.ledger.ingested || f in r.ledger.errors ==> AnyOf(batches, f))
    && (forall f :: f in r.lost ==> f in r.ledger.errors && f !in r.ledger.ingested)
    && (!r.raised ==> forall f :: AnyOf(batches, f) ==> f in r.ledger.ingested || f in r.ledger.errors)
  }

  lemma {:induction false} RoundEndOf(batches: seq<Batch>, s: Stage, place: map<int, Place>)
    requires BatchesOk(batches) && Located(s, place) && forall b :: b in place <==> b in Ids(batches)
    ensures RoundEnd(batches, s.received, s.suspects)
  {
    FilesOfOk(batches);
    forall i | 0 <= i < |s.suspects| ensures s.suspects[i] in FilesOf(batches) && s.suspects[i] !in s.received {
      assert Holds(s, s.suspects[i], Suspect);
      assert !Holds(s, s.suspects[i], Received);
    }
    forall b | b in s.received ensures b in FilesOf(batches) {
      assert Holds(s, b, Received);
    }
  }

  lemma {:induction false} FileIn(batches: seq<Batch>, f: File)
    requires BatchesOk(batches)
    ensures AnyOf(batches, f) <==> exists b :: b in FilesOf(batches) && f in FilesOf(batches)[b]
  {
    FilesOfOk(batches);
    hide FilesOf, BatchesOk;
    if AnyOf(batches, f) {
      var i :| 0 <= i < |batches| && f in batches[i].files;
      assert batches[i].id in FilesOf(batches);
    }
    if b :| b in FilesOf(batches) && f in FilesOf(batches)[b] {
      var i :| 0 <= i < |batches| && Ids(batches)[i] == b;
    }
  }

  /** A file is in a received batch, parsed again, or in a batch suspected a second time: exactly one of these. */
  ghost predicate Split(batches: seq<Batch>, received: set<int>, retry: seq<Batch>, lost: seq<File>) {
    forall f :: (AnyOf(batches, f) <==> OfBatches(FilesOf(batches), received, f) || AnyOf(retry, f) || f in lost)
                && !(OfBatches(FilesOf(batches), received, f) && AnyOf(retry, f))
                && !(OfBatches(FilesOf(batches), received, f) && f in lost)
                && !(AnyOf(retry, f) && f in lost)
  }

  lemma {:induction false} RetrySplits(batches: seq<Batch>, received: set<int>, suspects: seq<int>, retryLost: bool)
    requires BatchesOk(batches) && RoundEnd(batches, received, suspects)
    ensures Split(batches, received, RetryBatches(batches, received, suspects, retryLost),
                  if retryLost then [] else SuspectFiles(FilesOf(batches), suspects))
  {
    var files := FilesOf(batches);
    var retry := RetryBatches(batches, received, suspects, retryLost);
    var lost := if retryLost then [] else SuspectFiles(files, suspects);
    FilesOfOk(batches);
    SuspectFilesOk(files, suspects);
    hide FilesOf, SuspectFiles, RetryBatches, BatchesOk;
    forall f
      ensures AnyOf(batches, f) <==> OfBatches(files, received, f) || AnyOf(retry, f) || f in lost
      ensures !(OfBatches(files, received, f) && AnyOf(retry, f))
      ensures !(OfBatches(files, received, f) && f in lost)
      ensures !(AnyOf(retry, f) && f in lost)
    {
      RetryFiles(batches, received, suspects, retryLost, f);
      FileIn(batches, f);
      SplitOne(files, received, suspects, retryLost, f);
    }
  }

  lemma {:induction false} SplitOne(files: map<int, seq<File>>, received: set<int>, suspects: seq<int>, retryLost: bool, f: File)
    requires FilesOnce(files) && forall i :: 0 <= i < |suspects| ==> suspects[i] in files && suspects[i] !in received
    ensures (exists b :: b in files && f in files[b]) <==>
            OfBatches(files, received, f) || Again(files, received, suspects, retryLost, f) || Gone(files, suspects, retryLost, f)
    ensures !(OfBatches(files, received, f) && Again(files, received, suspects, retryLost, f))
    ensures !(OfBatches(files, received, f) && Gone(files, suspects, retryLost, f))
    ensures !(Again(files, received, suspects, retryLost, f) && Gone(files, suspects, retryLost, f))
  {
    if exists b :: b in files && f in files[b] {
      var b :| b in files && f in files[b];
      assert forall c :: c in files && f in files[c] ==> c == b;
      assert OfBatches(files, received, f) <==> b in received;
      assert Again(files, received, suspects, retryLost, f) <==> b !in received && (retryLost || b !in suspects);
      GoneIs(files, suspects, retryLost, f, b);
      assert b in suspects ==> b !in received;
    } else {
      forall i | 0 <= i < |suspects| ensures f !in files[suspects[i]] {
        assert suspects[i] in files;
      }
    }
  }

  lemma {:induction false} GoneIs(files: map<int, seq<File>>, suspects: seq<int>, retryLost: bool, f: File, b: int)
    requires (forall i :: 0 <= i < |suspects| ==> suspects[i] in files) && b in files && f in files[b]
    requires forall c :: c in files && f in files[c] ==> c == b
    ensures Gone(files, suspects, retryLost, f) <==> !retryLost && b in suspects
  {
    if b in suspects {
      var i :| 0 <= i < |suspects| && suspects[i] == b;
      assert f in files[suspects[i]];
    }
    if i :| 0 <= i < |suspects| && f in files[suspects[i]] {
      assert suspects[i] == b;
    }
  }

  lemma {:induction false} Combined(batches: seq<Batch>, received: set<int>, l: Ledger, retry: seq<Batch>, lost: seq<File>, again: StageResult)
    requires LedgerOk(FilesOf(batches), received, l) && Split(batches, received, retry, lost) && StageOk(retry, again)
    ensures StageOk(batches, StageResult(Ledger(l.ingested + again.ledger.ingested, l.errors + (set f | f in lost) + again.ledger.errors),
                                         lost + again.lost, again.raised))
  {
    hide FilesOf;
    forall f | f in l.ingested ensures f !in again.ledger.ingested {
      assert OfBatches(FilesOf(batches), received, f);
    }
    JoinDistinct(l.ingested, again.ledger.ingested);
    hide AnyOf;
    forall f | OfBatches(FilesOf(batches), received, f) ensures f in l.ingested || f in l.errors {
      var b :| b in received && b in FilesOf(batches) && f in FilesOf(batches)[b];
    }
    forall f | f in again.lost ensures f !in l.ingested {
      assert AnyOf(retry, f);
      assert !OfBatches(FilesOf(batches), received, f);
    }
  }

  function AllFiles(batches: seq<Batch>): seq<File> {
    if batches == [] then [] else var n := |batches| - 1; AllFiles(batches[..n]) + batches[n].files
  }

  lemma {:induction false} AllFilesAny(batches: seq<Batch>, f: File)
    ensures f in AllFiles(batches) <==> AnyOf(batches, f)
    decreases |batches|
  {
    if batches != [] {
      var n := |batches| - 1;
      AllFilesAny(batches[..n], f);
      if AnyOf(batches[..n], f) {
        var i :| 0 <= i < n && f in batches[..n][i].files;
        assert f in batches[i].files;
      }
      if AnyOf(batches, f) && f !in batches[n].files {
        var i :| 0 <= i < |batches| && f in batches[i].files;
        assert f in batches[..n][i].files;
      }
    }
  }

  /** Nothing further is parsed: every file of the batches left is reported lost. */
  lemma {:induction false} GivenUp(retry: seq<Batch>)
    ensures StageOk(retry, StageResult(Ledger([], set f | f in AllFiles(retry)), AllFiles(retry), false))
  {
    forall f ensures f in AllFiles(retry) <==> AnyOf(retry, f) {
      AllFilesAny(retry, f);
    }
  }

  /** Second rounds shrink: without progress there is none. */
  lemma {:induction false} RetryShrinks(batches: seq<Batch>, received: set<int>, suspects: seq<int>)
    requires BatchesOk(batches) && RoundEnd(batches, received, suspects) && (suspects != [] || received != {})
    ensures |RetryBatches(batches, received, suspects, false)| < |batches|
  {
    var out := received + (set b | b in suspects);
    LeftIn(batches, out);
    FilesOfOk(batches);
    var b: int;
    if suspects != [] {
      b := suspects[0];
    } else {
      b := Member(received);
    }
    assert b in out && b in Ids(batches);
    var i :| 0 <= i < |batches| && Ids(batches)[i] == b;
  }

  // ---------------------------------------------------------------- who was lost, and why

  /** One round of a stage: its batches, what happened, what it ingested, whether no worker could start, and which batches were
      made of one file of a suspect batch. */
  datatype Attempt = Attempt(batches: seq<Batch>, workers: nat, events: seq<Event>, received: set<int>, suspects: seq<int>, ledger: Ledger,
                             raised: bool, retryLost: bool, singles: set<int>)

  /** Where the round starts. */
  function StartOf(a: Attempt): Stage {
    Primed(Ids(a.batches), a.workers)
  }

  /** The round's events are legal and end with its outcome. */
  ghost predicate Ran(a: Attempt) {
    && BatchesOk(a.batches) && a.batches != [] && RoundEnd(a.batches, a.received, a.suspects)
    && (exists s :: Reached(StartOf(a), a.events, s) && EndsWith(a, s))
    && Kept(FilesOf(a.batches), StartOf(a), a.events, a.ledger)
  }

  ghost predicate EndsWith(a: Attempt, s: Stage) {
    Over(s) && s.received == a.received && s.suspects == a.suspects && (a.raised <==> s.initFailed == Crew(a.workers))
  }

  /** No fault in the round, and every result read, parsed and ingested in full. */
  predicate CleanAttempt(a: Attempt) {
    AllClean(FilesOf(a.batches), StartOf(a), a.events)
  }

  function RetryOf(a: Attempt): seq<Batch>
    requires forall i :: 0 <= i < |a.suspects| ==> a.suspects[i] in FilesOf(a.batches)
  {
    RetryBatches(a.batches, a.received, a.suspects, a.retryLost)
  }

  function LeftOf(a: Attempt): seq<Batch> {
    Left(a.batches, a.received + (set b | b in a.suspects))
  }

  /** The retried batch holds one file of a batch that was suspect. */
  predicate FromSuspect(a: Attempt, i: nat)
    requires forall k :: 0 <= k < |a.suspects| ==> a.suspects[k] in FilesOf(a.batches)
  {
    if a.retryLost then i < |SuspectFiles(FilesOf(a.batches), a.suspects)| else i < |LeftOf(a)| && LeftOf(a)[i].id in a.singles
  }

  function SingleIds(a: Attempt): set<int>
    requires forall k :: 0 <= k < |a.suspects| ==> a.suspects[k] in FilesOf(a.batches)
  {
    set i: nat | i < |RetryOf(a)| && FromSuspect(a, i) :: RetryOf(a)[i].id
  }

  ghost predicate Retries(a: Attempt, b: Attempt) {
    RoundEnd(a.batches, a.received, a.suspects) && !a.raised && b.batches == RetryOf(a) && !b.retryLost && b.singles == SingleIds(a)
  }

  /** The rounds of one stage. */
  ghost predicate Chain(attempts: seq<Attempt>) {
    && (forall i :: 0 <= i < |attempts| ==> Ran(attempts[i]))
    && forall i :: 0 <= i < |attempts| - 1 ==> Retries(attempts[i], attempts[i + 1])
  }

  /** The file is in a batch a worker died with. */
  predicate SuspectedIn(a: Attempt, f: File) {
    exists i :: 0 <= i < |a.suspects| && a.suspects[i] in FilesOf(a.batches) && f in FilesOf(a.batches)[a.suspects[i]]
  }

  predicate SuspectedBefore(attempts: seq<Attempt>, n: nat, f: File)
    requires n <= |attempts|
  {
    exists m :: 0 <= m < n && SuspectedIn(attempts[m], f)
  }

  predicate NoProgress(a: Attempt) {
    !a.raised && !a.retryLost && a.suspects == [] && a.received == {}
  }

  predicate LostAt(attempts: seq<Attempt>, n: nat, f: File)
    requires n < |attempts|
  {
    !attempts[n].raised && !attempts[n].retryLost && SuspectedIn(attempts[n], f)
  }

  /** The file was given up: suspect in a later round, or left over when a later round got nowhere. */
  predicate LostIn(attempts: seq<Attempt>, f: File) {
    || (exists n :: 0 <= n < |attempts| && LostAt(attempts, n, f))
    || (attempts != [] && NoProgress(attempts[|attempts|-1]) && AnyOf(attempts[|attempts|-1].batches, f))
  }

  /** What the rounds ingested, in order. */
  function TotalIngested(attempts: seq<Attempt>): seq<File> {
    if attempts == [] then [] else attempts[0].ledger.ingested + TotalIngested(attempts[1..])
  }

  /** What the rounds noted as errors. */
  predicate NotedIn(attempts: seq<Attempt>, f: File) {
    exists n :: 0 <= n < |attempts| && f in attempts[n].ledger.errors
  }

  lemma {:induction false} NotedFirst(a: Attempt, rest: seq<Attempt>, f: File)
    ensures NotedIn([a] + rest, f) <==> f in a.ledger.errors || NotedIn(rest, f)
  {
    var all := [a] + rest;
    if n :| 0 <= n < |rest| && f in rest[n].ledger.errors {
      assert f in all[n + 1].ledger.errors;
    }
    if f in a.ledger.errors {
      assert f in all[0].ledger.errors;
    }
  }

  lemma {:induction false} LostFirst(a: Attempt, rest: seq<Attempt>, f: File)
    requires !a.raised
    ensures LostIn([a] + rest, f) <==>
            || (!a.retryLost && SuspectedIn(a, f))
            || (if rest == [] then NoProgress(a) && AnyOf(a.batches, f) else LostIn(rest, f))
  {
    var all := [a] + rest;
    hide SuspectedIn, AnyOf;
    if rest != [] {
      assert all[|all|-1] == rest[|rest|-1];
    }
    if !a.retryLost && SuspectedIn(a, f) {
      assert LostAt(all, 0, f);
    }
    if n :| 0 <= n < |rest| && LostAt(rest, n, f) {
      assert LostAt(all, n + 1, f);
    }
    if n :| 0 <= n < |all| && LostAt(all, n, f) {
      assert n > 0 ==> LostAt(rest, n - 1, f);
    }
  }

  lemma {:induction false} NotSuspect(a: Attempt, b: Batch, f: File)
    requires BatchesOk(a.batches) && b in a.batches && b.id !in a.suspects && f in b.files
    ensures !SuspectedIn(a, f)
  {
    FilesOfOk(a.batches);
    hide FilesOf, BatchesOk;
    var j :| 0 <= j < |a.batches| && a.batches[j] == b;
    assert a.batches[j].id in FilesOf(a.batches) && FilesOf(a.batches)[b.id] == b.files;
    forall i | 0 <= i < |a.suspects| && a.suspects[i] in FilesOf(a.batches) ensures f !in FilesOf(a.batches)[a.suspects[i]] {
      assert a.suspects[i] != b.id;
    }
  }

  lemma {:induction false} RetryIds(a: Attempt, i: nat)
    requires RoundEnd(a.batches, a.received, a.suspects) && i < |RetryOf(a)|
    ensures RetryOf(a)[i].id in SingleIds(a) <==> FromSuspect(a, i)
  {
    hide FromSuspect, FilesOf, SuspectFiles, Left, Singles, NextId;
    assert forall k :: 0 <= k < |RetryOf(a)| ==> RetryOf(a)[k].id == NextId(a.batches) + k;
  }

  /** Where a retried batch comes from: one file of a suspect batch, or a batch nobody parsed, as it was. */
  lemma {:induction false} RetryShape(a: Attempt, i: nat)
    requires BatchesOk(a.batches) && RoundEnd(a.batches, a.received, a.suspects) && i < |RetryOf(a)|
    ensures var b := RetryOf(a)[i]; var suspected := if a.retryLost then |SuspectFiles(FilesOf(a.batches), a.suspects)| else 0;
            if i < suspected then |b.files| == 1 && SuspectedIn(a, b.files[0])
            else
              && i - suspected < |LeftOf(a)| && b.files == LeftOf(a)[i - suspected].files
              && LeftOf(a)[i - suspected] in a.batches && LeftOf(a)[i - suspected].id !in a.suspects && LeftOf(a)[i - suspected].id !in a.received
  {
    var files := FilesOf(a.batches);
    FilesOfOk(a.batches);
    SuspectFilesOk(files, a.suspects);
    LeftIn(a.batches, a.received + (set b | b in a.suspects));
    var singles := if a.retryLost then Singles(SuspectFiles(files, a.suspects)) else [];
    assert RetryOf(a) == Renumber(singles + LeftOf(a), NextId(a.batches));
    assert RetryOf(a)[i].files == (singles + LeftOf(a))[i].files;
    hide FilesOf, Left, SuspectFiles, BatchesOk, NextId, RetryOf, Singles, FilesOnce;
    if i < |singles| {
      var f := SuspectFiles(files, a.suspects)[i];
      assert f in SuspectFiles(files, a.suspects);
    } else {
      assert LeftOf(a)[i - |singles|] in LeftOf(a);
    }
  }

  lemma {:induction false} BeforeOneMore(attempts: seq<Attempt>, n: nat, f: File)
    requires n < |attempts|
    ensures SuspectedBefore(attempts, n + 1, f) <==> SuspectedBefore(attempts, n, f) || SuspectedIn(attempts[n], f)
  {
    hide SuspectedIn;
    if SuspectedBefore(attempts, n, f) {
      var m :| 0 <= m < n && SuspectedIn(attempts[m], f);
      assert m < n + 1;
    }
  }

  /** What a round's retry inherits: files of single-file batches were suspect, the others were not. */
  lemma {:induction false} SinglesStep(attempts: seq<Attempt>, n: nat, i: nat, f: File)
    requires n + 1 < |attempts| && Retries(attempts[n], attempts[n + 1]) && BatchesOk(attempts[n].batches)
    requires i < |attempts[n + 1].batches| && f in attempts[n + 1].batches[i].files
    requires attempts[n].retryLost ==> n == 0 && attempts[n].singles == {}
    requires forall j: nat :: j < |attempts[n].batches| && f in attempts[n].batches[j].files ==>
               SinglesAt(attempts, n, j, f)
    ensures SinglesAt(attempts, n + 1, i, f)
  {
    var a := attempts[n];
    RetryShape(a, i);
    RetryIds(a, i);
    BeforeOneMore(attempts, n, f);
    hide RetryBatches, RetryOf, LeftOf, SingleIds, SuspectedIn, SuspectedBefore, BatchesOk, RoundEnd;
    var suspected := if a.retryLost then |SuspectFiles(FilesOf(a.batches), a.suspects)| else 0;
    if i >= suspected {
      var b := LeftOf(a)[i - suspected];
      var j :| 0 <= j < |a.batches| && a.batches[j] == b;
      NotSuspect(a, b, f);
      assert SinglesAt(attempts, n, j, f);
    }
  }

  predicate SinglesAt(attempts: seq<Attempt>, n: nat, i: nat, f: File)
    requires n < |attempts| && i < |attempts[n].batches|
  {
    && (SuspectedBefore(attempts, n, f) <==> attempts[n].batches[i].id in attempts[n].singles)
    && (attempts[n].batches[i].id in attempts[n].singles ==> |attempts[n].batches[i].files| == 1)
  }

  /** A batch holds files that were suspect before exactly when it was made of one file of a suspect batch. */
  lemma {:induction false} SinglesWereSuspect(attempts: seq<Attempt>, n: nat, i: nat, f: File)
    requires Chain(attempts) && n < |attempts| && attempts[0].singles == {} && i < |attempts[n].batches| && f in attempts[n].batches[i].files
    ensures SinglesAt(attempts, n, i, f)
    decreases n
  {
    if n > 0 {
      assert Ran(attempts[n - 1]) && Retries(attempts[n - 1], attempts[n]);
      assert n - 1 > 0 ==> Retries(attempts[n - 2], attempts[n - 1]) && !attempts[n - 1].retryLost;
      RanBatches(attempts[n - 1]);
      hide Ran, Retries, BatchesOk, RoundEnd, SinglesAt, Chain;
      var before := attempts[n - 1].batches;
      forall j: nat | j < |before| && f in before[j].files ensures SinglesAt(attempts, n - 1, j, f) {
        SinglesWereSuspect(attempts, n - 1, j, f);
      }
      SinglesStep(attempts, n - 1, i, f);
    }
  }

  lemma {:induction false} RanBatches(a: Attempt)
    requires Ran(a)
    ensures BatchesOk(a.batches) && a.batches != [] && RoundEnd(a.batches, a.received, a.suspects)
  {
  }

  /** A file given up with the batch `b` its worker died with had been in such a batch before, as the report says, if and
      only if `b` was made of one file of a suspect batch. A batch retried whole is given up at its first death. */
  lemma {:induction false} KilledTwice(attempts: seq<Attempt>, n: nat, b: int, f: File)
    requires Chain(attempts) && n < |attempts| && attempts[0].singles == {} && !attempts[n].retryLost
    requires b in attempts[n].suspects && b in FilesOf(attempts[n].batches) && f in FilesOf(attempts[n].batches)[b]
    ensures !attempts[n].raised ==> LostIn(attempts, f)
    ensures SuspectedBefore(attempts, n, f) <==> b in attempts[n].singles
    ensures b in attempts[n].singles ==> FilesOf(attempts[n].batches)[b] == [f]
  {
    var a := attempts[n];
    assert Ran(a);
    hide Chain, Ran, SuspectedBefore, SuspectedIn, LostIn, SinglesAt, FilesOf;
    RanBatches(a);
    hide BatchesOk, RoundEnd;
    var i := BatchAt(a.batches, b);
    SinglesWereSuspect(attempts, n, i, f);
    assert SuspectedBefore(attempts, n, f) <==> a.batches[i].id in a.singles by {
      SinglesAre(attempts, n, i, f);
    }
    assert b in a.singles ==> FilesOf(a.batches)[b] == [f] by {
      SinglesAre(attempts, n, i, f);
    }
    if !a.raised {
      LostWith(attempts, n, b, f);
    }
  }

  lemma {:induction false} SinglesAre(attempts: seq<Attempt>, n: nat, i: nat, f: File)
    requires n < |attempts| && i < |attempts[n].batches| && f in attempts[n].batches[i].files && SinglesAt(attempts, n, i, f)
    ensures SuspectedBefore(attempts, n, f) <==> attempts[n].batches[i].id in attempts[n].singles
    ensures attempts[n].batches[i].id in attempts[n].singles ==> attempts[n].batches[i].files == [f]
  {
    hide SuspectedBefore;
  }

  lemma {:induction false} BatchAt(batches: seq<Batch>, b: int) returns (i: nat)
    requires BatchesOk(batches) && b in FilesOf(batches)
    ensures i < |batches| && batches[i].id == b && FilesOf(batches)[b] == batches[i].files
  {
    FilesOfOk(batches);
    hide FilesOf, BatchesOk;
    i :| 0 <= i < |batches| && Ids(batches)[i] == b;
  }

  lemma {:induction false} LostWith(attempts: seq<Attempt>, n: nat, b: int, f: File)
    requires n < |attempts| && !attempts[n].retryLost && !attempts[n].raised
    requires b in attempts[n].suspects && b in FilesOf(attempts[n].batches) && f in FilesOf(attempts[n].batches)[b]
    ensures LostIn(attempts, f)
  {
    hide FilesOf, AnyOf;
    var a := attempts[n];
    var k :| 0 <= k < |a.suspects| && a.suspects[k] == b;
    assert SuspectedIn(a, f);
    assert LostAt(attempts, n, f);
  }

  /** A stage's result is what its rounds came to. */
  ghost predicate Sums(attempts: seq<Attempt>, r: StageResult) {
    && r.ledger.ingested == TotalIngested(attempts)
    && (forall f :: f in r.ledger.errors <==> NotedIn(attempts, f) || f in r.lost)
    && (forall f :: f in r.lost <==> LostIn(attempts, f))
    && (r.raised <==> attempts != [] && attempts[|attempts|-1].raised)
  }

  /** When nothing goes wrong, every file is ingested and nothing else is reported. */
  ghost predicate AllIngested(batches: seq<Batch>, r: StageResult) {
    !r.raised && r.lost == [] && r.ledger.errors == {} && forall f :: f in r.ledger.ingested <==> AnyOf(batches, f)
  }

  /** Parse the batches: each file is ingested at most once, and when the stage returns every file was ingested or is
      reported. What is ingested and reported is what the rounds' events say, in order; the files lost are those of the
      rounds' suspects after the first failure, and those left when a round got nowhere. If nothing goes wrong there is one
      round, and it ingests all files. Recursion ends: a first round may retry, later rounds only with fewer batches. */
  method RunWorkerStage(batches: seq<Batch>, numWorkers: int, retryLost: bool, ghost singles: set<int>)
    returns (r: StageResult, ghost attempts: seq<Attempt>)
    requires BatchesOk(batches)
    ensures StageOk(batches, r)
    ensures Chain(attempts) && Sums(attempts, r) && (attempts == [] <==> batches == [])
    ensures AllCrewed(attempts, numWorkers)
    ensures attempts != [] ==> attempts[0].batches == batches && attempts[0].retryLost == retryLost && attempts[0].singles == singles
    ensures attempts != [] && CleanAttempt(attempts[0]) ==> |attempts| == 1 && AllIngested(batches, r)
    decreases retryLost, |batches|, 1
  {
    hide BatchesOk, FilesOf, SuspectFiles, RetryBatches, StageOk, LostIn, LedgerOk, Ran, SingleIds, CleanAttempt, CleanResult, AllIngested, Sums, Chain,
         NoProgress, RetryOf, Retries, GaveUp, Together, Crewed, AllCrewed;
    if batches == [] {
      NothingSums(numWorkers);
      return StageResult(Ledger([], {}), [], false), [];
    }
    var received, suspects, l, noneStarted, a := OneRound(batches, numWorkers, retryLost, singles);
    if noneStarted {
      RaisedStage(a, numWorkers);
      return StageResult(l, [], true), [a];
    }
    var lost := if retryLost then [] else SuspectFiles(FilesOf(batches), suspects);
    var again, rest := ParseAgain(batches, received, suspects, retryLost, numWorkers, a);
    r := Together(l, lost, again);
    StageOf(a, rest, lost, again, r);
    CrewedFirst(a, rest, numWorkers);
    attempts := [a] + rest;
  }

  /** The retry of a round, unless the round got nowhere. */
  method ParseAgain(batches: seq<Batch>, received: set<int>, suspects: seq<int>, retryLost: bool, numWorkers: int, ghost a: Attempt)
    returns (again: StageResult, ghost rest: seq<Attempt>)
    requires Ran(a) && !a.raised && a.batches == batches && a.received == received && a.suspects == suspects && a.retryLost == retryLost
    requires BatchesOk(batches) && RoundEnd(batches, received, suspects)
    ensures StageOk(RetryOf(a), again) && Chain(rest) && (rest != [] ==> Retries(a, rest[0]))
    ensures if NoProgress(a) then rest == [] && GaveUp(RetryOf(a), again) else Sums(rest, again) && (rest == [] <==> RetryOf(a) == [])
    ensures AllCrewed(rest, numWorkers)
    decreases retryLost, |batches|, 0
  {
    hide Ran, BatchesOk, FilesOf, RetryBatches, StageOk, LostIn, SingleIds, CleanAttempt, AllIngested, Sums;
    RetryOk(batches, received, suspects, retryLost);
    var retry := RetryBatches(batches, received, suspects, retryLost);
    if !retryLost && suspects == [] && received == {} {
      GivenUp(retry);
      again, rest := StageResult(Ledger([], set f | f in AllFiles(retry)), AllFiles(retry), false), [];
      return;
    }
    if !retryLost {
      RetryShrinks(batches, received, suspects);
    }
    again, rest := RunWorkerStage(retry, numWorkers, false, SingleIds(a));
  }

  /** A round and its retry. */
  lemma {:induction false} StageOf(a: Attempt, rest: seq<Attempt>, lost: seq<File>, again: StageResult, r: StageResult)
    requires Ran(a) && !a.raised && LedgerOk(FilesOf(a.batches), a.received, a.ledger) && RoundEnd(a.batches, a.received, a.suspects)
    requires lost == (if a.retryLost then [] else SuspectFiles(FilesOf(a.batches), a.suspects)) && r == Together(a.ledger, lost, again)
    requires StageOk(RetryOf(a), again) && Chain(rest) && (rest != [] ==> Retries(a, rest[0]))
    requires if NoProgress(a) then rest == [] && GaveUp(RetryOf(a), again) else Sums(rest, again) && (rest == [] <==> RetryOf(a) == [])
    requires CleanAttempt(a) ==> CleanResult(a)
    ensures StageOk(a.batches, r) && Chain([a] + rest) && Sums([a] + rest, r)
    ensures CleanAttempt(a) ==> rest == [] && AllIngested(a.batches, r)
  {
    hide BatchesOk, FilesOf, SuspectFiles, RetryBatches, StageOk, LedgerOk, Ran, CleanAttempt, CleanResult, AllIngested, Sums, Chain, RoundEnd,
         NoProgress, RetryOf, Retries, GaveUp;
    RoundAndRetry(a, rest, lost, again);
    CleanStage(a, rest, again, r);
  }

  /** A round in which nothing goes wrong has no retry, and ingests all files. */
  lemma {:induction false} CleanStage(a: Attempt, rest: seq<Attempt>, again: StageResult, r: StageResult)
    requires Ran(a) && !a.raised && (CleanAttempt(a) ==> CleanResult(a)) && StageOk(a.batches, r)
    requires if NoProgress(a) then rest == [] else (rest == [] <==> RetryOf(a) == []) && Sums(rest, again)
    requires r == Together(a.ledger, if a.retryLost then [] else SuspectFiles(FilesOf(a.batches), a.suspects), again)
    ensures CleanAttempt(a) ==> rest == [] && AllIngested(a.batches, r)
  {
    RanBatches(a);
    hide Ran, CleanAttempt, CleanResult, LostIn, Sums, AllIngested, RetryOf, FilesOf, StageOk;
    if CleanAttempt(a) {
      NothingLeft(a);
      SumsNone(again);
      assert r.lost == [] && r.ledger.errors == {};
      CleanAll(a, r);
    }
  }

  lemma {:induction false} NothingLeft(a: Attempt)
    requires CleanResult(a) && BatchesOk(a.batches) && a.batches != [] && RoundEnd(a.batches, a.received, a.suspects)
    ensures !NoProgress(a) && RetryOf(a) == [] && a.suspects == [] && SuspectFiles(FilesOf(a.batches), a.suspects) == [] && a.ledger.errors == {}
  {
    FilesOfOk(a.batches);
    LeftIn(a.batches, a.received + (set b | b in a.suspects));
    hide FilesOf, Left, BatchesOk, FilesOnce;
    assert a.batches[0].id in a.received;
    forall b | b in a.batches ensures b.id in a.received {
      var i :| 0 <= i < |a.batches| && a.batches[i] == b;
    }
    NoElement(LeftOf(a));
  }

  lemma {:induction false} NoElement<T>(q: seq<T>)
    ensures q == [] || exists x :: x in q
  {
    if q != [] {
      assert q[0] in q;
    }
  }

  lemma {:induction false} SumsNone(r: StageResult)
    ensures Sums([], r) ==> r.ledger == Ledger([], {}) && r.lost == [] && !r.raised
  {
    hide LostIn, NotedIn;
    var none: seq<Attempt> := [];
    forall f ensures !LostIn(none, f) && !NotedIn(none, f) {
      NoneOf(none, f);
    }
    if Sums(none, r) {
      Reported(none, r);
    }
  }

  lemma {:induction false} Reported(attempts: seq<Attempt>, r: StageResult)
    requires Sums(attempts, r)
    ensures r.lost == [] || exists f :: LostIn(attempts, f)
    ensures r.ledger.errors == {} || exists f :: LostIn(attempts, f) || NotedIn(attempts, f)
  {
    hide LostIn, NotedIn;
    if r.lost != [] {
      var f := r.lost[0];
      assert f in r.lost;
    }
    if r.ledger.errors != {} {
      var f := Member(r.ledger.errors);
    }
  }

  lemma {:induction false} NoneOf(none: seq<Attempt>, f: File)
    requires none == []
    ensures !LostIn(none, f) && !NotedIn(none, f)
  {
  }

  lemma {:induction false} CleanAll(a: Attempt, r: StageResult)
    requires CleanResult(a) && StageOk(a.batches, r) && BatchesOk(a.batches)
    requires r.ledger.ingested == a.ledger.ingested && r.ledger.errors == {} && r.lost == [] && !r.raised
    ensures AllIngested(a.batches, r)
  {
  }

  /** Every batch came back in full. */
  ghost predicate CleanResult(a: Attempt) {
    && !a.raised && a.suspects == [] && (forall b :: b in FilesOf(a.batches) ==> b in a.received)
    && InFullLedger(FilesOf(a.batches), a.received, a.ledger)
  }

  predicate AllCrewed(attempts: seq<Attempt>, numWorkers: int) {
    forall i :: 0 <= i < |attempts| ==> Crewed(attempts[i], numWorkers)
  }

  lemma {:induction false} CrewedFirst(a: Attempt, rest: seq<Attempt>, numWorkers: int)
    requires Crewed(a, numWorkers) && AllCrewed(rest, numWorkers)
    ensures AllCrewed([a] + rest, numWorkers)
  {
  }

  /** As many workers as asked for, but one at least and no more than batches. */
  predicate Crewed(a: Attempt, numWorkers: int) {
    1 <= a.workers <= |a.batches| && (a.workers == numWorkers || (numWorkers < 1 && a.workers == 1) || (numWorkers > |a.batches| && a.workers == |a.batches|))
  }

  method OneRound(batches: seq<Batch>, numWorkers: int, retryLost: bool, ghost singles: set<int>)
    returns (received: set<int>, suspects: seq<int>, l: Ledger, noneStarted: bool, ghost a: Attempt)
    requires BatchesOk(batches) && batches != []
    ensures Ran(a) && a == Attempt(batches, a.workers, a.events, received, suspects, l, noneStarted, retryLost, singles)
    ensures RoundEnd(batches, received, suspects) && LedgerOk(FilesOf(batches), received, l)
    ensures CleanAttempt(a) ==> CleanResult(a)
    ensures Crewed(a, numWorkers)
  {
    var n := if numWorkers < 1 then 1 else if numWorkers > |batches| then |batches| else numWorkers;
    FilesOfOk(batches);
    hide BatchesOk, FilesOnce, FilesOf, Located, Reached, LedgerOk, Over, Kept, Primed, CleanAttempt, CleanResult;
    ghost var s, place, events;
    received, suspects, l, noneStarted, s, place, events := Round(Ids(batches), FilesOf(batches), n);
    RoundEndOf(batches, s, place);
    a := Attempt(batches, n, events, received, suspects, l, noneStarted, retryLost, singles);
    if CleanAttempt(a) {
      CleanRound(a, s, place);
    }
  }

  lemma {:induction false} CleanRound(a: Attempt, s: Stage, place: map<int, Place>)
    requires CleanAttempt(a) && Reached(StartOf(a), a.events, s) && EndsWith(a, s) && Kept(FilesOf(a.batches), StartOf(a), a.events, a.ledger)
    requires BatchesOk(a.batches) && a.batches != [] && Located(s, place) && a.workers > 0 && forall b :: b in place <==> b in Ids(a.batches)
    ensures CleanResult(a)
  {
    FilesOfOk(a.batches);
    CleanRun(FilesOf(a.batches), Ids(a.batches), a.workers, a.events);
    hide FilesOf, Primed, Calm, AllClean, Legal, Located, Over, InFullLedger, BatchesOk, FilesOnce;
    CleanEnd(s, a.workers, place, a.batches[0].id);
    forall b | b in FilesOf(a.batches) ensures b in a.received {
      CleanEnd(s, a.workers, place, b);
    }
  }

  /** A round and its retry together. */
  lemma {:induction false} RoundAndRetry(a: Attempt, rest: seq<Attempt>, lost: seq<File>, again: StageResult)
    requires Ran(a) && !a.raised && LedgerOk(FilesOf(a.batches), a.received, a.ledger) && RoundEnd(a.batches, a.received, a.suspects)
    requires lost == if a.retryLost then [] else SuspectFiles(FilesOf(a.batches), a.suspects)
    requires StageOk(RetryOf(a), again) && Chain(rest) && (rest != [] ==> Retries(a, rest[0]))
    requires if NoProgress(a) then rest == [] && GaveUp(RetryOf(a), again) else Sums(rest, again)
    ensures StageOk(a.batches, Together(a.ledger, lost, again))
    ensures Chain([a] + rest) && Sums([a] + rest, Together(a.ledger, lost, again))
  {
    RanBatches(a);
    RetrySplits(a.batches, a.received, a.suspects, a.retryLost);
    hide FilesOf, SuspectFiles, RetryBatches, BatchesOk, Split, StageOk, LedgerOk, Ran, LostIn, Retries;
    Combined(a.batches, a.received, a.ledger, RetryOf(a), lost, again);
    LostIs(a, rest, lost, again.lost);
    SumsTogether(a, rest, lost, again);
  }

  /** Nothing further was parsed. */
  predicate GaveUp(retry: seq<Batch>, again: StageResult) {
    again == StageResult(Ledger([], set f | f in AllFiles(retry)), AllFiles(retry), false)
  }

  function Together(l: Ledger, lost: seq<File>, again: StageResult): StageResult {
    StageResult(Ledger(l.ingested + again.ledger.ingested, l.errors + (set f | f in lost) + again.ledger.errors),
                lost + again.lost, again.raised)
  }

  lemma {:induction false} SumsTogether(a: Attempt, rest: seq<Attempt>, lost: seq<File>, again: StageResult)
    requires !a.raised && if NoProgress(a) then rest == [] && again.ledger.ingested == [] && !again.raised && (forall f :: f in again.ledger.errors <==> f in again.lost) else Sums(rest, again)
    requires forall f :: f in lost + again.lost <==> LostIn([a] + rest, f)
    ensures Sums([a] + rest, Together(a.ledger, lost, again))
  {
    var all := [a] + rest;
    assert all[1..] == rest;
    hide LostIn, NotedIn;
    forall f ensures f in Together(a.ledger, lost, again).ledger.errors <==> NotedIn(all, f) || f in Together(a.ledger, lost, again).lost {
      NotedFirst(a, rest, f);
      if rest == [] {
        NoneOf(rest, f);
      }
    }
    assert TotalIngested(all) == a.ledger.ingested + TotalIngested(rest);
    if rest != [] {
      assert all[|all|-1] == rest[|rest|-1];
      assert !NoProgress(a) ==> (again.raised <==> all[|all|-1].raised);
    } else {
      assert all[|all|-1] == a;
    }
  }

  lemma {:induction false} NothingSums(numWorkers: int)
    ensures AllCrewed([], numWorkers) && Chain([]) && Sums([], StageResult(Ledger([], {}), [], false)) && StageOk([], StageResult(Ledger([], {}), [], false))
  {
    hide LostIn, NotedIn;
    forall f ensures !LostIn([], f) && !NotedIn([], f) {
      NoneOf([], f);
    }
  }

  /** No worker could start: the stage raises, with the round's ledger. */
  lemma {:induction false} RaisedStage(a: Attempt, numWorkers: int)
    requires Ran(a) && a.raised && Crewed(a, numWorkers) && BatchesOk(a.batches) && LedgerOk(FilesOf(a.batches), a.received, a.ledger)
    requires CleanAttempt(a) ==> CleanResult(a)
    ensures StageOk(a.batches, StageResult(a.ledger, [], true)) && Chain([a]) && Sums([a], StageResult(a.ledger, [], true))
    ensures AllCrewed([a], numWorkers) && !CleanAttempt(a)
  {
    hide Ran, BatchesOk, FilesOf, LedgerOk, CleanAttempt, Crewed, StageOk, Chain, Sums;
    RaisedOk(a.batches, a.received, a.ledger);
    RaisedSums(a);
    assert AllCrewed([a], numWorkers);
  }

  lemma {:induction false} RaisedSums(a: Attempt)
    requires Ran(a) && a.raised
    ensures Chain([a]) && Sums([a], StageResult(a.ledger, [], true))
  {
    hide Ran, NotedIn;
    assert [a][1..] == [] && [a] + [] == [a];
    assert TotalIngested([a]) == a.ledger.ingested;
    forall f ensures NotedIn([a], f) <==> f in a.ledger.errors {
      NotedFirst(a, [], f);
      NoneOf([], f);
    }
  }

  /** What one round loses and what its retry loses. */
  lemma {:induction false} LostIs(a: Attempt, rest: seq<Attempt>, lost: seq<File>, more: seq<File>)
    requires Ran(a) && !a.raised && Chain(rest) && RoundEnd(a.batches, a.received, a.suspects) && BatchesOk(a.batches)
    requires lost == if a.retryLost then [] else SuspectFiles(FilesOf(a.batches), a.suspects)
    requires if NoProgress(a) then rest == [] && more == AllFiles(RetryOf(a)) else forall f :: f in more <==> LostIn(rest, f)
    requires rest != [] ==> Retries(a, rest[0])
    ensures Chain([a] + rest) && forall f :: f in lost + more <==> LostIn([a] + rest, f)
  {
    hide Ran, FilesOf, SuspectFiles, RetryOf, Retries, BatchesOk, RoundEnd, LostIn;
    forall f ensures f in lost + more <==> LostIn([a] + rest, f) {
      LostOne(a, rest, lost, more, f);
    }
  }

  lemma {:induction false} LostOne(a: Attempt, rest: seq<Attempt>, lost: seq<File>, more: seq<File>, f: File)
    requires !a.raised && RoundEnd(a.batches, a.received, a.suspects) && BatchesOk(a.batches)
    requires lost == if a.retryLost then [] else SuspectFiles(FilesOf(a.batches), a.suspects)
    requires if NoProgress(a) then rest == [] && more == AllFiles(RetryOf(a)) else f in more <==> LostIn(rest, f)
    ensures f in lost + more <==> LostIn([a] + rest, f)
  {
    LostFirst(a, rest, f);
    SuspectsAre(a, f);
    if NoProgress(a) {
      RetriesAll(a, f);
    }
    hide FilesOf, SuspectFiles, RetryOf, BatchesOk, RoundEnd, LostIn, AnyOf, SuspectedIn, AllFiles;
  }

  lemma {:induction false} SuspectsAre(a: Attempt, f: File)
    requires RoundEnd(a.batches, a.received, a.suspects) && BatchesOk(a.batches)
    ensures f in SuspectFiles(FilesOf(a.batches), a.suspects) <==> SuspectedIn(a, f)
  {
    FilesOfOk(a.batches);
    SuspectFilesOk(FilesOf(a.batches), a.suspects);
    hide FilesOf, SuspectFiles, BatchesOk, FilesOnce;
  }

  /** Without progress everything is left over. */
  lemma {:induction false} RetriesAll(a: Attempt, f: File)
    requires RoundEnd(a.batches, a.received, a.suspects) && BatchesOk(a.batches) && NoProgress(a)
    ensures f in AllFiles(RetryOf(a)) <==> AnyOf(a.batches, f)
  {
    AllFilesAny(RetryOf(a), f);
    RetryFiles(a.batches, a.received, a.suspects, a.retryLost, f);
    FileIn(a.batches, f);
    hide FilesOf, RetryBatches, BatchesOk, AnyOf, AllFiles, RoundEnd;
  }

  lemma {:induction false} RaisedOk(batches: seq<Batch>, received: set<int>, l: Ledger)
    requires BatchesOk(batches) && LedgerOk(FilesOf(batches), received, l)
    ensures StageOk(batches, StageResult(l, [], true))
  {
    forall f | OfBatches(FilesOf(batches), received, f) ensures AnyOf(batches, f) {
      FileIn(batches, f);
      hide FilesOf, AnyOf;
      var b :| b in received && b in FilesOf(batches) && f in FilesOf(batches)[b];
    }
  }

  // ---------------------------------------------------------------- given up at the first death, concretely

  const BATCHES := [Batch(0, [10, 11]), Batch(1, [12, 13])]
  const CLEAN := Readable({10, 11, 12, 13}, false)

  /** The only worker dies with the first batch; the second was never started. */
  function FirstRound(): Attempt {
    Attempt(BATCHES, 1, [Killed(0)], {}, [0], Ledger([], {}), false, true, {})
  }

  /** It parses both files of the first batch, one by one, and dies with the second batch. */
  function SecondRound(): Attempt {
    Attempt([Batch(2, [10]), Batch(3, [11]), Batch(4, [12, 13])], 1,
            [Result(0, 0), Offered, Taking(CLEAN), Result(0, 0), Offered, Taking(CLEAN), Killed(0)], {2, 3}, [4],
            Ledger([10, 11], {}), false, false, {2, 3})
  }

  function At(pending: seq<int>, queue: seq<int>, hand: Option<int>, frames: seq<int>, received: set<int>): Stage {
    Stage(pending, [queue], {0}, {}, {}, {}, hand, frames, received, [])
  }

  lemma {:induction false} SentOne(b: int, rest: seq<int>, queue: seq<int>, hand: Option<int>, received: set<int>)
    ensures Sent(At([b] + rest, queue, hand, [], received), 0) == At(rest, queue + [b], hand, [], received)
  {
    assert ([b] + rest)[1..] == rest;
  }

  /** One worker, sent its first two batches. */
  lemma {:induction false} PrimedOne(b: int, c: int, rest: seq<int>)
    ensures Primed([b, c] + rest, 1) == At(rest, [b, c], None, [], {})
  {
    var ids := [b, c] + rest;
    var s0 := Start(ids, 1);
    assert Crew(1) == {0} by {
      assert Crew(0) == {};
    }
    assert ids == [b] + ([c] + rest);
    assert s0 == At(ids, [], None, [], {});
    SentOne(b, [c] + rest, [], None, {});
    SentOne(c, rest, [b], None, {});
    hide Sent;
    assert [] + [b] == [b] && [b] + [c] == [b, c];
    var s1 := SentTo(s0, 1);
    assert SentTo(s0, 0) == s0 && SentAhead(s0, 0) == s0 && SentAhead(s0, 1) == s1;
    assert SentTo(s1, 0) == s1 && SentAhead(s0, 2) == SentTo(s1, 1);
  }

  /** A result of the only worker. */
  lemma {:induction false} TakenOne(s: Stage, b: int, c: int, rest: seq<int>, received: set<int>)
    requires s == At(rest, [b, c], None, [], received)
    ensures Enabled(s, Result(0, 0))
    ensures After(s, Result(0, 0)) == if rest == [] then At([], [c], Some(b), [], received).(stopped := {0})
                                      else At(rest[1..], [c, rest[0]], Some(b), [], received)
  {
    assert [b, c][..0] + [b, c][1..] == [c];
    if rest != [] {
      assert rest == [rest[0]] + rest[1..] && [c] + [rest[0]] == [c, rest[0]];
      SentOne(rest[0], rest[1..], [c], Some(b), received);
      hide Sent;
      assert After(s, Result(0, 0)) == Sent(At(rest, [c], Some(b), [], received), 0);
    }
  }

  predicate Tracked(files: map<int, seq<File>>, start: Stage, events: seq<Event>, s: Stage, l: Ledger) {
    Reached(start, events, s) && Kept(files, start, events, l)
  }

  lemma {:induction false} OneMoreTracked(files: map<int, seq<File>>, start: Stage, events: seq<Event>, s: Stage, l: Ledger, e: Event)
    requires Tracked(files, start, events, s, l) && Enabled(s, e)
    ensures Tracked(files, start, events + [e], After(s, e), LedgerAfter(files, s, l, e))
  {
    hide Kept, Reached;
    OneMoreEvent(start, events, s, e);
  }

  /** It passes through the result queue. */
  lemma {:induction false} PassedOn(files: map<int, seq<File>>, start: Stage, events: seq<Event>, s: Stage, l: Ledger, b: int)
    requires Tracked(files, start, events, s, l) && s.hand == Some(b) && s.frames == [] && b in files
    ensures Tracked(files, start, events + [Offered] + [Taking(CLEAN)], s.(hand := None, received := s.received + {b}), Noted(files[b], l, CLEAN))
  {
    hide Tracked;
    var s1 := s.(hand := None, frames := [b]);
    assert Enabled(s, Offered) && After(s, Offered) == s1;
    OneMoreTracked(files, start, events, s, l, Offered);
    var s2 := s.(hand := None, received := s.received + {b});
    assert Enabled(s1, Taking(CLEAN)) && After(s1, Taking(CLEAN)) == s2;
    OneMoreTracked(files, start, events + [Offered], s1, l, Taking(CLEAN));
  }

  lemma {:induction false} OneResult(files: map<int, seq<File>>, start: Stage, events: seq<Event>, s: Stage, l: Ledger, b: int, c: int, rest: seq<int>,
                                     received: set<int>)
    requires Tracked(files, start, events, s, l) && s == At(rest, [b, c], None, [], received) && b in files
    ensures Tracked(files, start, events + [Result(0, 0), Offered, Taking(CLEAN)],
                    if rest == [] then At([], [c], None, [], received + {b}).(stopped := {0}) else At(rest[1..], [c, rest[0]], None, [], received + {b}),
                    Noted(files[b], l, CLEAN))
  {
    TakenOne(s, b, c, rest, received);
    hide Tracked, Enabled, After, Noted;
    OneMoreTracked(files, start, events, s, l, Result(0, 0));
    PassedOn(files, start, events + [Result(0, 0)], After(s, Result(0, 0)), l, b);
    assert events + [Result(0, 0)] + [Offered] + [Taking(CLEAN)] == events + [Result(0, 0), Offered, Taking(CLEAN)];
  }

  lemma {:induction false} Nothing(files: map<int, seq<File>>, s: Stage)
    ensures Tracked(files, s, [], s, Ledger([], {}))
  {
  }

  /** The only worker dies: the batch it was parsing is suspect. */
  lemma {:induction false} LastDeath(files: map<int, seq<File>>, start: Stage, events: seq<Event>, s: Stage, s': Stage, l: Ledger)
    requires Tracked(files, start, events, s, l) && s.open == {0} && s.done == s.initFailed == {} && |s.queues| == 1 && s.queues[0] != []
    requires s.hand == None && s.frames == [] && s' == Ended(s, 0)
    ensures Tracked(files, start, events + [Killed(0)], s', l) && Over(s') && s'.received == s.received && s'.suspects == s.suspects + [s.queues[0][0]]
    ensures s'.initFailed == {}
  {
    hide Tracked;
    OneMoreTracked(files, start, events, s, l, Killed(0));
  }

  lemma {:induction false} RanTo(a: Attempt, s: Stage)
    requires BatchesOk(a.batches) && a.batches != [] && RoundEnd(a.batches, a.received, a.suspects) && a.workers == 1
    requires Tracked(FilesOf(a.batches), StartOf(a), a.events, s, a.ledger) && Over(s) && s.received == a.received && s.suspects == a.suspects
    requires s.initFailed == {} && !a.raised
    ensures Ran(a)
  {
    assert 0 in Crew(1);
    hide Kept, Reached;
  }

  lemma {:induction false} FirstBatches()
    ensures BatchesOk(BATCHES) && Ids(BATCHES) == [0, 1] && RoundEnd(BATCHES, {}, [0])
  {
    assert Ids(BATCHES) == [0, 1];
    Knows(BATCHES, 0);
    hide FilesOf;
  }

  lemma {:induction false} Knows(batches: seq<Batch>, i: nat)
    requires Distinct(Ids(batches)) && i < |batches|
    ensures batches[i].id in FilesOf(batches)
  {
    FilesAt(batches);
  }

  lemma {:induction false} FirstRoundRan()
    ensures Ran(FirstRound())
  {
    FirstBatches();
    assert [0, 1] + [] == [0, 1];
    PrimedOne(0, 1, []);
    var s := At([], [0, 1], None, [], {});
    hide Tracked, Primed, BatchesOk, RoundEnd, Ran, Ended, FilesOf;
    Nothing(FilesOf(BATCHES), s);
    LastDeath(FilesOf(BATCHES), s, [], s, Ended(s, 0), Ledger([], {}));
    assert [] + [Killed(0)] == [Killed(0)] && [] + [0] == [0];
    RanTo(FirstRound(), Ended(s, 0));
  }

  lemma {:induction false} SecondBatches()
    ensures BatchesOk(SecondRound().batches) && Ids(SecondRound().batches) == [2, 3, 4] && RoundEnd(SecondRound().batches, {2, 3}, [4])
  {
    var batches := SecondRound().batches;
    assert Ids(batches) == [2, 3, 4];
    Knows(batches, 0);
    Knows(batches, 1);
    Knows(batches, 2);
    hide FilesOf;
    assert Disjoint(batches) by {
      forall i, j, f | 0 <= i < |batches| && 0 <= j < |batches| && f in batches[i].files && f in batches[j].files ensures i == j {
        assert f == 10 <==> i == 0;
        assert f == 11 <==> i == 1;
      }
    }
  }

  lemma {:induction false} SecondFiles()
    ensures var files := FilesOf(SecondRound().batches); 2 in files && 3 in files && files[2] == [10] && files[3] == [11]
  {
    var batches := SecondRound().batches;
    SecondBatches();
    FilesAt(batches);
    hide FilesOf;
    assert batches[0].id == 2 && batches[1].id == 3;
  }

  lemma {:induction false} BothKept()
    ensures Noted([10], Ledger([], {}), CLEAN) == Ledger([10], {}) && Noted([11], Ledger([10], {}), CLEAN) == Ledger([10, 11], {})
  {
    assert Keep([10][..0], CLEAN.parsed) == [] && Keep([11][..0], CLEAN.parsed) == [];
    assert [10][..0] == [] && [11][..0] == [];
  }

  lemma {:induction false} SecondRoundReaches(s: Stage, s': Stage)
    requires s == At([4], [2, 3], None, [], {}) && s' == At([], [4], None, [], {2, 3}).(stopped := {0})
    ensures Tracked(FilesOf(SecondRound().batches), s, [Result(0, 0), Offered, Taking(CLEAN)] + [Result(0, 0), Offered, Taking(CLEAN)], s',
                    Ledger([10, 11], {}))
  {
    SecondFiles();
    var files := FilesOf(SecondRound().batches);
    hide Tracked, FilesOf, SecondRound;
    Nothing(files, s);
    var one := [Result(0, 0), Offered, Taking(CLEAN)];
    OneResult(files, s, [], s, Ledger([], {}), 2, 3, [4], {});
    assert [] + one == one && [4][1..] == [] && {} + {2} == {2};
    BothKept();
    hide Noted;
    OneResult(files, s, one, At([], [3, 4], None, [], {2}), Ledger([10], {}), 3, 4, [], {2});
    assert {2} + {3} == {2, 3};
  }

  lemma {:induction false} SecondRoundRan()
    ensures Ran(SecondRound())
  {
    hide Tracked, Primed, BatchesOk, RoundEnd, Ran, Ended, Over, FilesOf;
    SecondBatches();
    assert [2, 3] + [4] == [2, 3, 4];
    PrimedOne(2, 3, [4]);
    var s2 := At([], [4], None, [], {2, 3}).(stopped := {0});
    SecondRoundEnds(At([4], [2, 3], None, [], {}), s2);
    RanTo(SecondRound(), Ended(s2, 0));
  }

  lemma {:induction false} SecondRoundEnds(s: Stage, s2: Stage)
    requires s == At([4], [2, 3], None, [], {}) && s2 == At([], [4], None, [], {2, 3}).(stopped := {0})
    ensures Tracked(FilesOf(SecondRound().batches), s, SecondRound().events, Ended(s2, 0), Ledger([10, 11], {}))
    ensures Over(Ended(s2, 0)) && Ended(s2, 0).received == {2, 3} && Ended(s2, 0).suspects == [4] && Ended(s2, 0).initFailed == {}
  {
    hide Tracked, Ended, Enabled, After, FilesOf, Over;
    var one := [Result(0, 0), Offered, Taking(CLEAN)];
    SecondRoundReaches(s, s2);
    LastDeath(FilesOf(SecondRound().batches), s, one + one, s2, Ended(s2, 0), Ledger([10, 11], {}));
    assert one + one + [Killed(0)] == SecondRound().events && [] + [4] == [4];
  }

  lemma {:induction false} RetryParts()
    ensures SuspectFiles(FilesOf(BATCHES), [0]) == [10, 11] && LeftOf(FirstRound()) == [BATCHES[1]] && NextId(BATCHES) == 2
    ensures RoundEnd(BATCHES, {}, [0])
  {
    FilesAt(BATCHES);
    var files := FilesOf(BATCHES);
    hide FilesOf;
    assert SuspectFiles(files, [0]) == SuspectFiles(files, []) + [10, 11] by {
      assert [0][..0] == [];
    }
    assert BATCHES[..1] == [BATCHES[0]] && [BATCHES[0]][..0] == [];
    assert {} + (set b | b in [0]) == {0};
    assert Left([BATCHES[0]], {0}) == Left([], {0}) == [];
    assert NextId([BATCHES[0]]) == 1 && NextId([]) == 0;
  }

  lemma {:induction false} SecondRetriesFirst()
    ensures Retries(FirstRound(), SecondRound())
  {
    RetryParts();
    var a := FirstRound();
    hide FilesOf, SuspectFiles, Left, NextId;
    assert Singles([10, 11]) == [Batch(0, [10]), Batch(1, [11])];
    assert RetryOf(a) == Renumber(Singles([10, 11]) + LeftOf(a), 2);
    assert RetryOf(a) == SecondRound().batches;
    forall id ensures id in SingleIds(a) <==> id == 2 || id == 3 {
      if id == 2 || id == 3 {
        RetryIds(a, id - 2);
      }
    }
  }

  /** Files 12 and 13 are lost in the second round, with the batch its worker died with; no worker had died with them before. */
  lemma {:induction false} LostAtFirstDeath()
    ensures Chain([FirstRound(), SecondRound()]) && FirstRound().singles == {} && FirstRound().retryLost
    ensures forall f :: f in {12, 13} ==> LostIn([FirstRound(), SecondRound()], f) && !SuspectedBefore([FirstRound(), SecondRound()], 1, f)
  {
    FirstRoundRan();
    SecondRoundRan();
    SecondRetriesFirst();
    var attempts := [FirstRound(), SecondRound()];
    hide Ran, Retries, LostIn, SuspectedBefore;
    assert forall f :: f in {12, 13} ==> 4 in FilesOf(SecondRound().batches) && f in FilesOf(SecondRound().batches)[4] by {
      FilesAt(SecondRound().batches);
      assert SecondRound().batches[2].id == 4;
    }
    hide FilesOf;
    forall f | f in {12, 13} ensures LostIn(attempts, f) && !SuspectedBefore(attempts, 1, f) {
      KilledTwice(attempts, 1, 4, f);
    }
  }
}
