/** Event-driven execution of ChangeSets while workers are still parsing (main.py, `DependencyScheduler`): a ChangeSet
    that references a file of the same update still to execute waits on it and is woken when it completes. */
module Scheduler {
  import opened Basics
  import opened Waves

  /** What the files contain: the files their operations reference, the dependencies their parser declared, the files that
      cannot finish without stubs whatever has completed, and the kinds that have no foreign references. */
  datatype Files = Files(refs: Deps, deps: Deps, stuck: set<Path>, local: set<Path>)
  {
    function RefsOf(p: Path): set<Path> {
      if p in refs then refs[p] else {}
    }

    function DepsOf(p: Path): set<Path> {
      if p in deps then deps[p] else {}
    }

    predicate Valid() {
      forall p :: p in local ==> RefsOf(p) == {} && p !in stuck
    }
  }

  /** An execution: by the scheduler when nothing it references was in flight, or by a wave pass. */
  datatype Entry = Entry(path: Path, wave: bool, forced: bool)

  /** `left` holds headers that failed without anything in flight to wait on: the wave pass takes them. */
  datatype State = State(completed: set<Path>, waiters: Deps, pending: Deps, ready: seq<Path>, deferred: seq<Path>,
                         left: set<Path>, stored: set<Path>, changed: set<Path>, log: seq<Entry>)

  /** Belongs to this update, and has not executed yet. */
  predicate InFlight(s: State, d: Path) {
    d !in s.completed && (d in s.changed || d in s.stored)
  }

  predicate CanStick(f: Files, p: Path) {
    p in f.stuck || p in f.RefsOf(p)
  }

  // ---------------------------------------------------------------- the invariant

  /** `p` is registered to wake when `d` completes, and nothing else holds it back for good. */
  predicate Awaits(s: State, p: Path, d: Path) {
    d in s.waiters && p in s.waiters[d] && InFlight(s, d) && d != p && (p in s.pending ==> d in s.pending[p])
  }

  ghost predicate Placed(s: State, p: Path) {
    p in s.ready || p in s.deferred || p in s.left || exists d :: Awaits(s, p, d)
  }

  predicate Held(s: State, p: Path, d: Path) {
    InFlight(s, d) && d in s.waiters && p in s.waiters[d] && d != p
  }

  /** A held header waits on at least one file, and only on files in flight that will wake it. */
  predicate PendingOk(s: State, p: Path) {
    p in s.pending ==> s.pending[p] != {} && forall d :: d in s.pending[p] ==> Held(s, p, d)
  }

  /** A file is waited on only by files that reference it or declared it a dependency. */
  predicate ReasonOk(f: Files, s: State, d: Path, p: Path) {
    d in s.waiters && p in s.waiters[d] ==> d in f.RefsOf(p) + f.DepsOf(p)
  }

  predicate ParkOk(f: Files, s: State, p: Path) {
    p in s.deferred || p in s.left ==> CanStick(f, p)
  }

  predicate LoggedBefore(log: seq<Entry>, n: nat, d: Path)
    requires n <= |log|
  {
    exists j :: 0 <= j < n && log[j].path == d
  }

  /** Executions are the completed files, each once. */
  ghost predicate LogOk(s: State) {
    && (forall i, j :: 0 <= i < j < |s.log| ==> s.log[i].path != s.log[j].path)
    && (forall d :: d in s.completed <==> LoggedBefore(s.log, |s.log|, d))
  }

  /** Outside the wave passes, a file executes after every file of the update it references. `base` is the update as
      known from the start. */
  predicate OrderOk(f: Files, base: set<Path>, log: seq<Entry>) {
    forall i, d :: 0 <= i < |log| && !log[i].wave && d in f.RefsOf(log[i].path) && d in base ==> LoggedBefore(log, i, d)
  }

  /** No lost wakeups: every stored file that has not executed is in some queue or waits on a file in flight. `x` holds files
      in the hands of the running operation. */
  ghost predicate NoneLost(s: State, x: set<Path>) {
    forall p :: p in s.stored && p !in s.completed && p !in x ==> Placed(s, p)
  }

  ghost predicate WaitingOk(f: Files, s: State) {
    && (forall p :: p in s.pending ==> PendingOk(s, p))
    && (forall d, p :: d in s.waiters && p in s.waiters[d] ==> ReasonOk(f, s, d, p))
    && (forall p :: p in s.deferred || p in s.left ==> ParkOk(f, s, p))
  }

  ghost predicate InvBut(f: Files, base: set<Path>, s: State, x: set<Path>) {
    && f.Valid() && base <= s.changed && s.completed <= s.stored
    && NoneLost(s, x) && WaitingOk(f, s) && LogOk(s) && OrderOk(f, base, s.log)
  }

  ghost predicate Inv(f: Files, base: set<Path>, s: State) {
    InvBut(f, base, s, {})
  }

  // ---------------------------------------------------------------- completing a file

  function Popped(s: State, path: Path): set<Path> {
    if path in s.waiters then s.waiters[path] else {}
  }

  /** The held headers once the waiters in `done` have been told that `path` completed. */
  function PendingAfter(pending: Deps, done: set<Path>, path: Path): Deps {
    map w | w in pending && !(w in done && pending[w] - {path} == {}) :: if w in done then pending[w] - {path} else pending[w]
  }

  function Woken(pending: Deps, done: set<Path>, path: Path): set<Path> {
    set w | w in done && (w in pending ==> pending[w] - {path} == {})
  }

  ghost predicate Joined(ready: seq<Path>, woken: set<Path>, ready': seq<Path>) {
    forall w :: w in ready' <==> w in ready || w in woken
  }

  ghost predicate Completes(s: State, path: Path, s': State) {
    && s' == s.(completed := s.completed + {path}, waiters := s.waiters - {path},
                pending := PendingAfter(s.pending, Popped(s, path), path), ready := s'.ready)
    && Joined(s.ready, Woken(s.pending, Popped(s, path), path), s'.ready)
  }

  lemma {:induction false} StillPlaced(s: State, path: Path, s': State, p: Path)
    requires Completes(s, path, s') && PendingOk(s, p) && Placed(s, p)
    ensures Placed(s', p)
  {
    if p in s.ready {
      assert p in s'.ready;
    } else if p in s.deferred || p in s.left {
    } else {
      var d :| Awaits(s, p, d);
      if p in Woken(s.pending, Popped(s, path), path) {
        assert p in s'.ready;
      } else if p in s.pending {
        StillHeld(s, path, s', p);
      } else {
        assert d != path;
        assert Awaits(s', p, d);
      }
    }
  }

  /** A held header that is not woken still waits on another file. */
  lemma {:induction false} StillHeld(s: State, path: Path, s': State, p: Path)
    requires Completes(s, path, s') && PendingOk(s, p) && p in s.pending && p !in Woken(s.pending, Popped(s, path), path)
    ensures p in s'.pending && exists d :: Awaits(s', p, d)
  {
    var others := s.pending[p] - {path};
    if path in s.pending[p] {
      assert Held(s, p, path);
    }
    assert others != {} by {
      if path !in s.pending[p] {
        assert others == s.pending[p];
      }
    }
    var d := Member(others);
    assert Held(s, p, d);
    assert Awaits(s', p, d);
  }

  lemma {:induction false} StillPending(s: State, path: Path, s': State, p: Path)
    requires Completes(s, path, s') && p in s'.pending && PendingOk(s, p)
    ensures PendingOk(s', p)
  {
    var popped := Popped(s, path);
    assert p in s.pending && s'.pending[p] <= s.pending[p];
    forall d | d in s'.pending[p] ensures Held(s', p, d) {
      assert Held(s, p, d);
      assert d != path;
    }
    if p !in popped {
      assert s'.pending[p] == s.pending[p];
    }
  }

  lemma {:induction false} CompleteWaiting(f: Files, s: State, path: Path, s': State)
    requires WaitingOk(f, s) && Completes(s, path, s')
    ensures WaitingOk(f, s')
  {
    hide Joined, CanStick;
    forall p | p in s'.pending ensures PendingOk(s', p) {
      assert p in s.pending;
      assert PendingOk(s, p);
      StillPending(s, path, s', p);
    }
    forall d, p | d in s'.waiters && p in s'.waiters[d] ensures ReasonOk(f, s', d, p) {
      assert ReasonOk(f, s, d, p);
    }
    forall p | p in s'.deferred || p in s'.left ensures ParkOk(f, s', p) {
      assert ParkOk(f, s, p);
    }
  }

  lemma {:induction false} CompleteNoneLost(f: Files, s: State, path: Path, s': State, x: set<Path>)
    requires WaitingOk(f, s) && NoneLost(s, x + {path}) && Completes(s, path, s')
    ensures NoneLost(s', x)
  {
    forall p | p in s'.stored && p !in s'.completed && p !in x ensures Placed(s', p) {
      assert p !in x + {path} && Placed(s, p);
      hide Placed, Completes;
      StillPlaced(s, path, s', p);
    }
  }

  // ---------------------------------------------------------------- the other transitions

  /** More files stored or announced; nothing else changes but the log. */
  predicate Grows(s: State, s': State) {
    s' == s.(stored := s'.stored, changed := s'.changed, log := s'.log) && s.stored <= s'.stored && s.changed <= s'.changed
  }

  lemma {:induction false} GrowsPlaced(s: State, s': State, p: Path)
    requires Grows(s, s') && Placed(s, p)
    ensures Placed(s', p)
  {
    if !(p in s.ready || p in s.deferred || p in s.left) {
      var d :| Awaits(s, p, d);
      assert Awaits(s', p, d);
    }
  }

  lemma {:induction false} GrowsWaiting(f: Files, s: State, s': State)
    requires WaitingOk(f, s) && Grows(s, s')
    ensures WaitingOk(f, s')
  {
    hide CanStick;
    forall p | p in s'.pending ensures PendingOk(s', p) {
      assert PendingOk(s, p);
      forall d | d in s'.pending[p] ensures Held(s', p, d) {
        assert Held(s, p, d);
      }
    }
    forall d, p | d in s'.waiters && p in s'.waiters[d] ensures ReasonOk(f, s', d, p) {
      assert ReasonOk(f, s, d, p);
    }
    forall p | p in s'.deferred || p in s'.left ensures ParkOk(f, s', p) {
      assert ParkOk(f, s, p);
    }
  }

  lemma {:induction false} GrowsNoneLost(s: State, s': State, x: set<Path>, y: set<Path>)
    requires NoneLost(s, x) && Grows(s, s') && forall p :: p in x || p in s'.stored - s.stored ==> p in y
    ensures NoneLost(s', y)
  {
    forall p | p in s'.stored && p !in s'.completed && p !in y ensures Placed(s', p) {
      assert Placed(s, p);
      GrowsPlaced(s, s', p);
    }
  }

  /** A file executed by the scheduler: recorded, and its waiters woken. */
  lemma {:induction false} RunKeeps(f: Files, base: set<Path>, s: State, path: Path, s': State, x: set<Path>)
    requires InvBut(f, base, s, x + {path}) && path !in s.completed
    requires forall d :: d in f.RefsOf(path) ==> !InFlight(s, d)
    requires Completes(s.(stored := s.stored + {path}, log := s.log + [Entry(path, false, false)]), path, s')
    ensures InvBut(f, base, s', x)
  {
    var s1 := s.(stored := s.stored + {path}, log := s.log + [Entry(path, false, false)]);
    assert Grows(s, s1);
    LogGrows(s, path, s1.log);
    OrderGrows(f, base, s, path);
    hide WaitingOk, NoneLost, Joined, LogOk, OrderOk;
    GrowsWaiting(f, s, s1);
    GrowsNoneLost(s, s1, x + {path}, x + {path});
    CompleteWaiting(f, s1, path, s');
    CompleteNoneLost(f, s1, path, s', x);
    SameLog(s.(completed := s.completed + {path}, log := s1.log), s');
  }

  lemma {:induction false} SameLog(s: State, s': State)
    requires LogOk(s) && s'.log == s.log && s'.completed == s.completed
    ensures LogOk(s')
  {
  }

  lemma {:induction false} LogGrows(s: State, path: Path, log: seq<Entry>)
    requires LogOk(s) && path !in s.completed && log == s.log + [Entry(path, false, false)]
    ensures LogOk(s.(completed := s.completed + {path}, log := log))
  {
    var n := |s.log|;
    forall i | 0 <= i < n ensures log[i].path != path {
      assert LoggedBefore(s.log, n, log[i].path);
    }
    forall d ensures d in s.completed + {path} <==> LoggedBefore(log, n + 1, d) {
      if d in s.completed {
        var j :| 0 <= j < n && s.log[j].path == d;
        assert log[j].path == d;
      } else if d == path {
        assert log[n].path == d;
      } else if LoggedBefore(log, n + 1, d) {
        var j :| 0 <= j < n + 1 && log[j].path == d;
        assert LoggedBefore(s.log, n, d);
      }
    }
  }

  lemma {:induction false} OrderGrows(f: Files, base: set<Path>, s: State, path: Path)
    requires OrderOk(f, base, s.log) && LogOk(s) && base <= s.changed
    requires forall d :: d in f.RefsOf(path) ==> !InFlight(s, d)
    ensures OrderOk(f, base, s.log + [Entry(path, false, false)])
  {
    var n, log := |s.log|, s.log + [Entry(path, false, false)];
    forall i, d | 0 <= i < |log| && !log[i].wave && d in f.RefsOf(log[i].path) && d in base ensures LoggedBefore(log, i, d) {
      if i < n {
        assert LoggedBefore(s.log, i, d);
      } else {
        assert !InFlight(s, d);
        assert LoggedBefore(s.log, n, d);
      }
      var j :| 0 <= j < i && s.log[j].path == d;
      assert log[j].path == d;
    }
  }

  /** The next ready file is taken off the queue. */
  lemma {:induction false} TakeReady(f: Files, base: set<Path>, s: State)
    requires s.ready != [] && Inv(f, base, s)
    ensures InvBut(f, base, s.(ready := s.ready[1..]), {} + {s.ready[0]})
  {
    var s' := s.(ready := s.ready[1..]);
    hide OrderOk;
    forall p | p in s'.stored && p !in s'.completed && p !in {} + {s.ready[0]} ensures Placed(s', p) {
      assert Placed(s, p);
      SamePlaced(s, s', p);
    }
    SameWaiting(f, s, s');
  }

  lemma {:induction false} SamePlaced(s: State, s': State, p: Path)
    requires Placed(s, p) && s' == s.(ready := s'.ready, deferred := s'.deferred, left := s'.left, log := s'.log)
    requires p in s.ready ==> p in s'.ready
    requires p in s.deferred ==> p in s'.deferred
    requires p in s.left ==> p in s'.left
    ensures Placed(s', p)
  {
    if !(p in s.ready || p in s.deferred || p in s.left) {
      var d :| Awaits(s, p, d);
      assert Awaits(s', p, d);
    }
  }

  lemma {:induction false} SameWaiting(f: Files, s: State, s': State)
    requires WaitingOk(f, s) && s' == s.(ready := s'.ready, deferred := s'.deferred, left := s'.left, log := s'.log)
    requires forall p :: p in s'.deferred || p in s'.left ==> p in s.deferred || p in s.left || CanStick(f, p)
    ensures WaitingOk(f, s')
  {
    forall p | p in s'.pending ensures PendingOk(s', p) {
      assert PendingOk(s, p);
      forall d | d in s'.pending[p] ensures Held(s', p, d) {
        assert Held(s, p, d);
      }
    }
    forall d, p | d in s'.waiters && p in s'.waiters[d] ensures ReasonOk(f, s', d, p) {
      assert ReasonOk(f, s, d, p);
    }
    forall p | p in s'.deferred || p in s'.left ensures ParkOk(f, s', p) {
      assert ParkOk(f, s, p) || CanStick(f, p);
    }
  }

  /** A file that was completed meanwhile, or is not stored, needs no place. */
  lemma {:induction false} DropTaken(f: Files, base: set<Path>, s: State, x: set<Path>, p: Path)
    requires InvBut(f, base, s, x + {p}) && (p in s.completed || p !in s.stored)
    ensures InvBut(f, base, s, x)
  {
    forall q | q in s.stored && q !in s.completed && q !in x ensures Placed(s, q) {
      assert q !in x + {p};
    }
  }

  /** Waiting on a file in flight. */
  predicate Parks(s: State, path: Path, d: Path, s': State) {
    s' == s.(stored := s.stored + {path}, waiters := s.waiters[d := Popped(s, d) + {path}])
  }

  lemma {:induction false} ParkKeeps(f: Files, base: set<Path>, s: State, path: Path, d: Path, s': State, x: set<Path>)
    requires InvBut(f, base, s, x + {path}) && Parks(s, path, d, s')
    requires InFlight(s, d) && d != path && d in f.RefsOf(path)
    ensures InvBut(f, base, s', x)
  {
    hide OrderOk;
    ParkWaiting(f, s, path, d, s');
    forall p | p in s'.stored && p !in s'.completed && p !in x ensures Placed(s', p) {
      if p == path {
        ParkPlaces(f, s, path, d, s');
      } else {
        assert Placed(s, p);
        ParkPlaced(s, path, d, s', p);
      }
    }
  }

  lemma {:induction false} ParkPlaces(f: Files, s: State, path: Path, d: Path, s': State)
    requires Parks(s, path, d, s') && InFlight(s, d) && d != path && WaitingOk(f, s)
    ensures Placed(s', path)
  {
    if path in s.pending {
      assert PendingOk(s, path);
      var e := Member(s.pending[path]);
      assert Held(s, path, e);
      assert Awaits(s', path, e);
    } else {
      assert Awaits(s', path, d);
    }
  }

  lemma {:induction false} ParkPlaced(s: State, path: Path, d: Path, s': State, p: Path)
    requires Parks(s, path, d, s') && Placed(s, p)
    ensures Placed(s', p)
  {
    if !(p in s.ready || p in s.deferred || p in s.left) {
      var e :| Awaits(s, p, e);
      assert Awaits(s', p, e);
    }
  }

  lemma {:induction false} ParkWaiting(f: Files, s: State, path: Path, d: Path, s': State)
    requires Parks(s, path, d, s') && WaitingOk(f, s) && d in f.RefsOf(path)
    ensures WaitingOk(f, s')
  {
    hide CanStick;
    forall p | p in s'.pending ensures PendingOk(s', p) {
      assert PendingOk(s, p);
      forall e | e in s'.pending[p] ensures Held(s', p, e) {
        assert Held(s, p, e);
      }
    }
    forall e, p | e in s'.waiters && p in s'.waiters[e] ensures ReasonOk(f, s', e, p) {
      if e in s.waiters && p in s.waiters[e] {
        assert ReasonOk(f, s, e, p);
      }
    }
    forall p | p in s'.deferred || p in s'.left ensures ParkOk(f, s', p) {
      assert ParkOk(f, s, p);
    }
  }

  /** Nothing in flight to wait on: deferred, or left to the wave pass. */
  lemma {:induction false} DeferKeeps(f: Files, base: set<Path>, s: State, path: Path, defer: bool, s': State, x: set<Path>)
    requires InvBut(f, base, s, x + {path}) && CanStick(f, path)
    requires s' == s.(stored := s.stored + {path}, deferred := if defer then s.deferred + [path] else s.deferred,
                      left := if defer then s.left else s.left + {path})
    ensures InvBut(f, base, s', x)
  {
    hide OrderOk;
    var s1 := s.(stored := s.stored + {path});
    GrowsWaiting(f, s, s1);
    SameWaiting(f, s1, s');
    forall p | p in s'.stored && p !in s'.completed && p !in x ensures Placed(s', p) {
      if p != path {
        assert Placed(s, p);
        GrowsPlaced(s, s1, p);
        SamePlaced(s1, s', p);
      }
    }
  }

  /** A header held until the files in flight it declared have executed. */
  ghost predicate Holds(f: Files, s: State, path: Path, pending: set<Path>, s': State) {
    && (forall d :: d in pending <==> d in f.DepsOf(path) && d != path && InFlight(s, d))
    && s' == s.(stored := s.stored + {path}, pending := s.pending[path := pending], waiters := WithWaiter(s.waiters, pending, path))
  }

  lemma {:induction false} HoldKeeps(f: Files, base: set<Path>, s: State, path: Path, pending: set<Path>, s': State, x: set<Path>)
    requires InvBut(f, base, s, x + {path}) && Holds(f, s, path, pending, s') && pending != {}
    ensures InvBut(f, base, s', x)
  {
    hide OrderOk;
    HoldWaiting(f, s, path, pending, s');
    forall p | p in s'.stored && p !in s'.completed && p !in x ensures Placed(s', p) {
      if p == path {
        var d := Member(pending);
        assert Awaits(s', p, d);
      } else {
        assert Placed(s, p);
        HoldPlaced(f, s, path, pending, s', p);
      }
    }
  }

  lemma {:induction false} HoldPlaced(f: Files, s: State, path: Path, pending: set<Path>, s': State, p: Path)
    requires Holds(f, s, path, pending, s') && Placed(s, p) && p != path
    ensures Placed(s', p)
  {
    if !(p in s.ready || p in s.deferred || p in s.left) {
      var d :| Awaits(s, p, d);
      assert Awaits(s', p, d);
    }
  }

  lemma {:induction false} HoldWaiting(f: Files, s: State, path: Path, pending: set<Path>, s': State)
    requires Holds(f, s, path, pending, s') && pending != {} && WaitingOk(f, s)
    ensures WaitingOk(f, s')
  {
    hide CanStick;
    forall p | p in s'.pending ensures PendingOk(s', p) {
      if p != path {
        assert PendingOk(s, p);
      }
      forall d | d in s'.pending[p] ensures Held(s', p, d) {
        if p != path {
          assert Held(s, p, d);
        }
      }
    }
    forall d, p | d in s'.waiters && p in s'.waiters[d] ensures ReasonOk(f, s', d, p) {
      if d in s.waiters && p in s.waiters[d] {
        assert ReasonOk(f, s, d, p);
      }
    }
    forall p | p in s'.deferred || p in s'.left ensures ParkOk(f, s', p) {
      assert ParkOk(f, s, p);
    }
  }

  /** A file with no foreign references, executed on arrival. */
  lemma {:induction false} LocalIsFree(f: Files, s: State, path: Path)
    requires f.Valid() && path in f.local
    ensures forall d :: d in f.RefsOf(path) ==> !InFlight(s, d)
  {
  }

  // ---------------------------------------------------------------- what the invariant gives

  /** The ranked files lead into no cycle, to no file that never arrives, and cannot get stuck. */
  predicate Grounded(f: Files, s: State, rank: map<Path, nat>) {
    && (forall p :: p in rank ==> !CanStick(f, p))
    && forall p, d :: p in rank && d in f.RefsOf(p) + f.DepsOf(p) && (d in s.changed || d in s.stored) ==>
         d in s.stored && d in rank && rank[d] < rank[p]
  }

  /** When nothing is ready, every arrived file that leads into no cycle has executed: none waits for a wakeup that is lost. */
  lemma {:induction false} GroundedHaveExecuted(f: Files, base: set<Path>, s: State, rank: map<Path, nat>, p: Path)
    requires Inv(f, base, s) && s.ready == [] && Grounded(f, s, rank) && p in rank && p in s.stored
    ensures p in s.completed
    decreases rank[p]
  {
    if p !in s.completed {
      assert Placed(s, p);
      NotParked(f, s, p);
      var d :| Awaits(s, p, d);
      assert ReasonOk(f, s, d, p);
      GroundedHaveExecuted(f, base, s, rank, d);
    }
  }

  lemma {:induction false} NotParked(f: Files, s: State, p: Path)
    requires WaitingOk(f, s) && !CanStick(f, p)
    ensures p !in s.deferred && p !in s.left
  {
    assert p in s.deferred || p in s.left ==> ParkOk(f, s, p);
  }

  /** If all files arrived and the graph of references and declared dependencies is acyclic, everything has executed
      without a wave pass. */
  lemma {:induction false} AcyclicAllExecuted(f: Files, base: set<Path>, s: State, rank: map<Path, nat>)
    requires Inv(f, base, s) && s.ready == [] && s.changed <= s.stored && Grounded(f, s, rank) && s.stored <= rank.Keys
    ensures s.completed == s.stored
  {
    forall p | p in s.stored ensures p in s.completed {
      GroundedHaveExecuted(f, base, s, rank, p);
    }
  }

  /** A file that has not executed when nothing is ready cannot finish, or waits on another such file or on one that has
      not arrived. */
  lemma {:induction false} WhyUnexecuted(f: Files, base: set<Path>, s: State, p: Path)
    requires Inv(f, base, s) && s.ready == [] && p in s.stored && p !in s.completed
    ensures CanStick(f, p) || exists d :: d in f.RefsOf(p) + f.DepsOf(p) && d != p && InFlight(s, d) && d in s.waiters && p in s.waiters[d]
  {
    assert Placed(s, p);
    if p in s.deferred || p in s.left {
      assert ParkOk(f, s, p);
    } else {
      var d :| Awaits(s, p, d);
      assert ReasonOk(f, s, d, p);
    }
  }

  // ---------------------------------------------------------------- wave passes

  function WaveLog(order: seq<Step>): (r: seq<Entry>)
    ensures |r| == |order| && forall i :: 0 <= i < |order| ==> r[i] == Entry(order[i].path, true, order[i].forced)
  {
    seq(|order|, i requires 0 <= i < |order| => Entry(order[i].path, true, order[i].forced))
  }

  /** A wave pass executes every stored file that has not executed. */
  ghost predicate WavePass(f: Files, ops: map<Path, nat>, s: State, s': State) {
    && s' == s.(completed := s.completed + s.stored, pending := map[],
                log := s.log + WaveLog(Order(f.deps, ops, s.stored - s.completed, s.stored - s.completed)))
  }

  lemma {:induction false} DistinctConcat(a: seq<Entry>, b: seq<Entry>, files: set<Path>)
    requires forall i, j :: 0 <= i < j < |a| ==> a[i].path != a[j].path
    requires forall i, j :: 0 <= i < j < |b| ==> b[i].path != b[j].path
    requires (forall i :: 0 <= i < |a| ==> a[i].path !in files) && forall i :: 0 <= i < |b| ==> b[i].path in files
    ensures forall i, j :: 0 <= i < j < |a + b| ==> (a + b)[i].path != (a + b)[j].path
  {
  }

  lemma {:induction false} LoggedConcat(a: seq<Entry>, b: seq<Entry>, d: Path)
    ensures LoggedBefore(a + b, |a + b|, d) <==> LoggedBefore(a, |a|, d) || LoggedBefore(b, |b|, d)
  {
    var c := a + b;
    if LoggedBefore(a, |a|, d) {
      var j :| 0 <= j < |a| && a[j].path == d;
      assert c[j].path == d;
    } else if LoggedBefore(b, |b|, d) {
      var j :| 0 <= j < |b| && b[j].path == d;
      assert c[|a| + j].path == d;
    }
  }

  /** The log of a wave pass: each of the files once. */
  lemma {:induction false} WaveLogOnce(f: Files, ops: map<Path, nat>, files: set<Path>, log: seq<Entry>)
    requires log == WaveLog(Order(f.deps, ops, files, files))
    ensures forall i, j :: 0 <= i < j < |log| ==> log[i].path != log[j].path
    ensures forall i :: 0 <= i < |log| ==> log[i].path in files
    ensures forall d :: d in files ==> LoggedBefore(log, |log|, d)
  {
    EachOnce(f.deps, ops, files);
    var order := Order(f.deps, ops, files, files);
    hide Order;
    forall d | d in files ensures LoggedBefore(log, |log|, d) {
      var i :| 0 <= i < |order| && order[i].path == d;
      assert log[i].path == d;
    }
  }

  lemma {:induction false} WaveLogOk(f: Files, ops: map<Path, nat>, s: State, s': State)
    requires LogOk(s) && WavePass(f, ops, s, s')
    ensures LogOk(s')
  {
    var files := s.stored - s.completed;
    var more := WaveLog(Order(f.deps, ops, files, files));
    WaveLogOnce(f, ops, files, more);
    assert s'.completed == s.completed + s.stored && s'.log == s.log + more;
    hide Order, WaveLog, WavePass;
    LogMore(s, files, more, s');
  }

  /** The log grows by the files of a wave pass, each once. */
  lemma {:induction false} LogMore(s: State, files: set<Path>, more: seq<Entry>, s': State)
    requires LogOk(s) && files == s.stored - s.completed && s'.completed == s.completed + s.stored && s'.log == s.log + more
    requires forall i, j :: 0 <= i < j < |more| ==> more[i].path != more[j].path
    requires forall i :: 0 <= i < |more| ==> more[i].path in files
    requires forall d :: d in files ==> LoggedBefore(more, |more|, d)
    ensures LogOk(s')
  {
    forall i | 0 <= i < |s.log| ensures s.log[i].path !in files {
      assert LoggedBefore(s.log, |s.log|, s.log[i].path);
    }
    DistinctConcat(s.log, more, files);
    forall d ensures d in s'.completed <==> LoggedBefore(s'.log, |s'.log|, d) {
      LoggedConcat(s.log, more, d);
      if LoggedBefore(more, |more|, d) {
        var j :| 0 <= j < |more| && more[j].path == d;
        assert d in files;
      }
    }
  }

  lemma {:induction false} WaveKeeps(f: Files, base: set<Path>, ops: map<Path, nat>, s: State, s': State)
    requires Inv(f, base, s) && WavePass(f, ops, s, s')
    ensures Inv(f, base, s')
  {
    WaveLogOk(f, ops, s, s');
    hide LogOk, Order, CanStick;
    forall i, d | 0 <= i < |s'.log| && !s'.log[i].wave && d in f.RefsOf(s'.log[i].path) && d in base ensures LoggedBefore(s'.log, i, d) {
      assert LoggedBefore(s.log, i, d);
      var j :| 0 <= j < i && s.log[j].path == d;
      assert s'.log[j].path == d;
    }
    forall d, p | d in s'.waiters && p in s'.waiters[d] ensures ReasonOk(f, s', d, p) {
      assert ReasonOk(f, s, d, p);
    }
    forall p | p in s'.deferred || p in s'.left ensures ParkOk(f, s', p) {
      assert ParkOk(f, s, p);
    }
  }

  /** Waiters of a file completed by a wave pass are woken. */
  lemma {:induction false} WakeKeeps(f: Files, base: set<Path>, s: State, d: Path, s': State)
    requires Inv(f, base, s) && d in s.completed && Completes(s, d, s')
    ensures Inv(f, base, s') && s'.completed == s.completed
  {
    assert s.completed + {d} == s.completed;
    hide WaitingOk, LogOk, OrderOk, Joined;
    assert NoneLost(s, {} + {d}) by {
      hide Placed;
    }
    CompleteWaiting(f, s, d, s');
    CompleteNoneLost(f, s, d, s', {});
    SameLog(s, s');
  }

  // ---------------------------------------------------------------- the scheduler

  class DependencyScheduler {
    const f: Files
    const ops: map<Path, nat>
    ghost const base: set<Path>
    var completed: set<Path>
    var waiters: Deps
    var pendingDeps: Deps
    var ready: seq<Path>
    var deferredQueue: seq<Path>
    var stored: set<Path>
    var changed: set<Path>
    ghost var left: set<Path>
    ghost var log: seq<Entry>

    ghost function St(): State
      reads this
    {
      State(completed, waiters, pendingDeps, ready, deferredQueue, left, stored, changed, log)
    }

    constructor (f: Files, ops: map<Path, nat>, changed: set<Path>)
      requires f.Valid()
      ensures this.f == f && this.ops == ops && this.base == changed
      ensures Inv(f, base, St()) && St() == State({}, map[], map[], [], [], {}, {}, changed, [])
    {
      this.f, this.ops, this.base, this.changed := f, ops, changed, changed;
      completed, waiters, pendingDeps, ready, deferredQueue, stored, left, log := {}, map[], map[], [], [], {}, {}, [];
    }

    /** More files of the update turn out to need parsing. */
    method Announce(paths: set<Path>)
      requires Inv(f, base, St())
      modifies this`changed
      ensures Inv(f, base, St()) && St() == old(St()).(changed := old(changed) + paths)
    {
      changed := changed + paths;
      AnnounceKeeps(f, base, old(St()), St());
    }

    /** Record a file as executed and queue the files that waited only on it. */
    method Complete(path: Path)
      modifies this`completed, this`waiters, this`pendingDeps, this`ready
      ensures Completes(old(St()), path, St())
    {
      completed := completed + {path};
      var popped := if path in waiters then waiters[path] else {};
      waiters := waiters - {path};
      pendingDeps, ready := Tell(pendingDeps, popped, path, ready);
    }

    /** Whether all operations of a file resolve, and if not, a file in flight that one of them references. */
    method Attempt(path: Path) returns (ok: bool, blockedOn: Option<Path>)
      ensures ok <==> path !in f.stuck && forall d :: d in f.RefsOf(path) ==> !InFlight(St(), d)
      ensures !ok ==> if blockedOn.Some? then blockedOn.value in f.RefsOf(path) && InFlight(St(), blockedOn.value) else path in f.stuck
    {
      var blocked := set d | d in f.RefsOf(path) && d !in completed && (d in changed || d in stored);
      if blocked != {} {
        var d := Pick(blocked);
        var named: bool := *;
        return false, if path in f.stuck && !named then None else Some(d);
      }
      forall d | d in f.RefsOf(path) ensures !InFlight(St(), d) {
        assert d !in blocked;
      }
      return path !in f.stuck, None;
    }

    /** Execute a file: on success wake its waiters, otherwise park it. */
    method Execute(path: Path, defer: bool, ghost x: set<Path>) returns (ok: bool)
      requires InvBut(f, base, St(), x + {path}) && path !in completed
      modifies this
      ensures InvBut(f, base, St(), x) && stored == old(stored) + {path} && changed == old(changed)
      ensures ok ==> completed == old(completed) + {path} && path in stored && deferredQueue == old(deferredQueue)
      ensures !ok ==> completed == old(completed) && ready == old(ready)
      ensures ok <==> path !in f.stuck && forall d :: d in f.RefsOf(path) ==> !InFlight(old(St()), d)
      ensures defer ==> left == old(left)
    {
      hide InvBut, Completes;
      ghost var s := St();
      var blockedOn;
      ok, blockedOn := Attempt(path);
      stored := stored + {path};
      if ok {
        log := log + [Entry(path, false, false)];
        Complete(path);
        CompletesFields(s.(stored := s.stored + {path}, log := s.log + [Entry(path, false, false)]), path, St());
        RunKeeps(f, base, s, path, St(), x);
        return;
      }
      if blockedOn.Some? && blockedOn.value != path && blockedOn.value !in completed
         && (blockedOn.value in changed || blockedOn.value in stored) {
        var d := blockedOn.value;
        waiters := waiters[d := (if d in waiters then waiters[d] else {}) + {path}];
        ParkKeeps(f, base, s, path, d, St(), x);
        return;
      }
      if defer {
        deferredQueue := deferredQueue + [path];
      } else {
        left := left + {path};
      }
      DeferKeeps(f, base, s, path, defer, St(), x);
    }

    /** Run the woken files, and in turn the ones they wake. */
    method DrainReady()
      requires Inv(f, base, St())
      modifies this
      ensures Inv(f, base, St()) && ready == []
      ensures stored == old(stored) && changed == old(changed) && old(completed) <= completed && left == old(left)
    {
      while ready != []
        invariant Inv(f, base, St())
        invariant stored == old(stored) && changed == old(changed) && old(completed) <= completed && left == old(left)
        decreases |stored - completed|, |ready|
      {
        hide InvBut;
        ghost var s := St();
        var path := ready[0];
        ready := ready[1..];
        TakeReady(f, base, s);
        if path in completed || path !in stored {
          DropTaken(f, base, St(), {}, path);
        } else {
          ghost var before := completed;
          assert stored + {path} == stored;
          var ok := Execute(path, true, {});
          if ok {
            Remaining(stored, before, path);
          }
        }
      }
    }

    /** Wake the waiters of files completed by a wave pass. */
    method WakeCompleted()
      requires Inv(f, base, St())
      modifies this
      ensures Inv(f, base, St()) && ready == []
      ensures stored == old(stored) && changed == old(changed) && old(completed) <= completed
    {
      var deps := set d | d in waiters && d in completed;
      while deps != {}
        invariant Inv(f, base, St()) && deps <= completed
        invariant stored == old(stored) && changed == old(changed) && completed == old(completed)
        decreases |deps|
      {
        hide InvBut, Completes;
        var d := Pick(deps);
        deps := deps - {d};
        ghost var s := St();
        Complete(d);
        CompletesFields(s, d, St());
        WakeKeeps(f, base, s, d, St());
      }
      DrainReady();
    }

    /** One file of a batch. In the header stage a file with declared dependencies in flight is not executed: it is held on
        exactly those. */
    method IngestOne(path: Path, isHeaderStage: bool)
      requires Inv(f, base, St()) && (path in f.local ==> path !in completed)
      modifies this
      ensures Inv(f, base, St())
      ensures stored == old(stored) + {path} && changed == old(changed) && old(completed) <= completed <= old(completed) + {path}
      ensures !isHeaderStage ==> left == old(left)
      ensures isHeaderStage && path !in f.local && path !in old(completed)
              && (exists d :: d in f.DepsOf(path) && d != path && InFlight(old(St()), d)) ==>
                && completed == old(completed) && log == old(log) && path in pendingDeps
                && forall d :: d in pendingDeps[path] <==> d in f.DepsOf(path) && d != path && InFlight(old(St()), d)
    {
      assert f.Valid();
      hide InvBut, Completes;
      ghost var s := St();
      Weaken(f, base, s, {path});
      if path in f.local {
        // Executed on arrival: it references no other file
        stored, log := stored + {path}, log + [Entry(path, false, false)];
        ghost var s1 := St();
        Complete(path);
        CompletesFields(s1, path, St());
        LocalIsFree(f, s, path);
        RunKeeps(f, base, s, path, St(), {});
        return;
      }
      if path in completed {
        stored := stored + {path};
        StoreKeeps(f, base, s, path, St());
        return;
      }
      if isHeaderStage {
        var pending := set d | d in f.DepsOf(path) && d != path && d !in completed && (d in changed || d in stored);
        if pending != {} {
          pendingDeps, stored := pendingDeps[path := pending], stored + {path};
          waiters := AddWaiter(waiters, pending, path);
          HoldKeeps(f, base, s, path, pending, St(), {});
          return;
        }
      }
      var ok := Execute(path, !isHeaderStage, {});
    }

    /** A batch arrived from a worker: execute every file of it whose dependencies allow. Outside the header stage none is left
        to the wave pass: a file that did not execute and waits on no other is queued for a retry. */
    method IngestBatch(batch: seq<Path>, isHeaderStage: bool)
      requires Inv(f, base, St())
      requires forall p :: p in batch && p in f.local ==> p !in completed
      requires forall i, j :: 0 <= i < j < |batch| ==> batch[i] != batch[j]
      modifies this
      ensures Inv(f, base, St()) && ready == []
      ensures stored == old(stored) + Members(batch) && changed == old(changed) && old(completed) <= completed
      ensures !isHeaderStage ==> left == old(left)
      ensures forall p :: p in stored && p !in completed && p !in left && p !in deferredQueue ==> exists d :: Awaits(St(), p, d)
    {
      for i := 0 to |batch|
        invariant Inv(f, base, St())
        invariant !isHeaderStage ==> left == old(left)
        invariant stored == old(stored) + Members(batch[..i]) && changed == old(changed)
        invariant old(completed) <= completed <= old(completed) + Members(batch[..i])
      {
        hide InvBut;
        NextFile(batch, i);
        IngestOne(batch[i], isHeaderStage);
      }
      assert batch[..|batch|] == batch;
      DrainReady();
      Unexecuted(f, base, St());
    }

    /** The wave pass over what is left, with whatever waited on it woken. */
    method ResolveHeaders()
      requires Inv(f, base, St())
      modifies this
      ensures Inv(f, base, St()) && ready == [] && stored == old(stored) && changed == old(changed) && stored <= completed
    {
      hide InvBut, Order;
      RunWaves();
      WakeCompleted();
    }

    method RunWaves()
      requires Inv(f, base, St())
      modifies this
      ensures Inv(f, base, St()) && WavePass(f, ops, old(St()), St())
    {
      hide InvBut, Order;
      ghost var s := St();
      var order := Waves.Execute(f.deps, ops, stored - completed);
      completed, pendingDeps, log := completed + stored, map[], log + WaveLog(order);
      WaveKeeps(f, base, ops, s, St());
    }

    /** Retry the deferred files without stubs. */
    method DrainDeferredQueue()
      requires Inv(f, base, St())
      modifies this
      ensures Inv(f, base, St()) && ready == []
      ensures stored == old(stored) && changed == old(changed) && old(completed) <= completed
    {
      WakeCompleted();
      var deferred := deferredQueue;
      ghost var s := St();
      deferredQueue := [];
      TakeDeferred(f, base, s, St());
      while deferred != []
        invariant InvBut(f, base, St(), Members(deferred))
        invariant stored == old(stored) && changed == old(changed) && old(completed) <= completed
        decreases |deferred|
      {
        hide InvBut;
        var path := deferred[0];
        HeadFile(deferred);
        deferred := deferred[1..];
        if path in completed || path !in stored {
          DropTaken(f, base, St(), Members(deferred), path);
        } else {
          var ok := Execute(path, true, Members(deferred));
        }
      }
      assert Members(deferred) == {};
      DrainReady();
    }

    /** Everything still waiting goes through the wave pass. */
    method Finalize()
      requires Inv(f, base, St())
      modifies this
      ensures Inv(f, base, St()) && stored == old(stored) && stored <= completed
    {
      hide InvBut, Order;
      DrainDeferredQueue();
      RunWaves();
      ghost var s := St();
      waiters := map[];
      pendingDeps := map[];
      ClearKeeps(f, base, s, St());
    }
  }

  lemma {:induction false} Unexecuted(f: Files, base: set<Path>, s: State)
    requires Inv(f, base, s) && s.ready == []
    ensures forall p :: p in s.stored && p !in s.completed && p !in s.left && p !in s.deferred ==> exists d :: Awaits(s, p, d)
  {
    hide WaitingOk, LogOk, OrderOk, Awaits;
    forall p | p in s.stored && p !in s.completed && p !in s.left && p !in s.deferred ensures exists d :: Awaits(s, p, d) {
      assert Placed(s, p);
    }
  }

  function Members(paths: seq<Path>): set<Path> {
    set p | p in paths
  }

  lemma {:induction false} NextFile(batch: seq<Path>, i: nat)
    requires i < |batch| && forall i, j :: 0 <= i < j < |batch| ==> batch[i] != batch[j]
    ensures Members(batch[..i + 1]) == Members(batch[..i]) + {batch[i]} && batch[i] !in Members(batch[..i])
  {
    assert batch[..i + 1] == batch[..i] + [batch[i]];
  }

  lemma {:induction false} HeadFile(batch: seq<Path>)
    requires batch != []
    ensures Members(batch) == Members(batch[1..]) + {batch[0]}
  {
    assert batch == [batch[0]] + batch[1..];
  }

  lemma {:induction false} Remaining(stored: set<Path>, before: set<Path>, path: Path)
    requires path in stored && path !in before
    ensures |stored - (before + {path})| < |stored - before|
  {
    assert stored - (before + {path}) == (stored - before) - {path};
  }

  lemma {:induction false} CompletesFields(s: State, path: Path, s': State)
    requires Completes(s, path, s')
    ensures s'.completed == s.completed + {path} && s'.stored == s.stored && s'.changed == s.changed && s'.deferred == s.deferred
    ensures s'.log == s.log && s'.left == s.left
  {
  }

  lemma {:induction false} Weaken(f: Files, base: set<Path>, s: State, x: set<Path>)
    requires Inv(f, base, s)
    ensures InvBut(f, base, s, {} + x)
  {
    hide Placed;
  }

  lemma {:induction false} StoreKeeps(f: Files, base: set<Path>, s: State, path: Path, s': State)
    requires Inv(f, base, s) && path in s.completed && s' == s.(stored := s.stored + {path})
    ensures Inv(f, base, s')
  {
    hide OrderOk, Placed;
    GrowsWaiting(f, s, s');
    GrowsNoneLost(s, s', {}, {});
  }

  lemma {:induction false} AnnounceKeeps(f: Files, base: set<Path>, s: State, s': State)
    requires Inv(f, base, s) && s' == s.(changed := s'.changed) && s.changed <= s'.changed
    ensures Inv(f, base, s')
  {
    hide OrderOk, Placed;
    GrowsWaiting(f, s, s');
    GrowsNoneLost(s, s', {}, {});
  }

  lemma {:induction false} TakeDeferred(f: Files, base: set<Path>, s: State, s': State)
    requires Inv(f, base, s) && s' == s.(deferred := [])
    ensures InvBut(f, base, s', Members(s.deferred))
  {
    hide OrderOk;
    SameWaiting(f, s, s');
    forall p | p in s'.stored && p !in s'.completed && p !in Members(s.deferred) ensures Placed(s', p) {
      assert Placed(s, p);
      SamePlaced(s, s', p);
    }
  }

  lemma {:induction false} ClearKeeps(f: Files, base: set<Path>, s: State, s': State)
    requires Inv(f, base, s) && s.stored <= s.completed && s' == s.(waiters := map[], pending := map[])
    ensures Inv(f, base, s')
  {
    hide OrderOk, CanStick;
    forall p | p in s'.deferred || p in s'.left ensures ParkOk(f, s', p) {
      assert ParkOk(f, s, p);
    }
  }

  function WithWaiter(waiters: Deps, pending: set<Path>, path: Path): Deps {
    map d | d in waiters.Keys + pending ::
      if d in pending then (if d in waiters then waiters[d] else {}) + {path} else waiters[d]
  }

  lemma {:induction false} OneWaiter(waiters: Deps, done: set<Path>, d: Path, path: Path, waiters': Deps)
    requires waiters' == WithWaiter(waiters, done, path) && d !in done
    ensures WithWaiter(waiters, done + {d}, path) == waiters'[d := (if d in waiters' then waiters'[d] else {}) + {path}]
  {
  }

  /** Register a held header with every file it waits on. */
  method AddWaiter(waiters: Deps, pending: set<Path>, path: Path) returns (waiters': Deps)
    ensures waiters' == WithWaiter(waiters, pending, path)
  {
    waiters' := waiters;
    var rest := pending;
    NoWaiter(waiters, pending, path);
    while rest != {}
      invariant rest <= pending && waiters' == WithWaiter(waiters, pending - rest, path)
      decreases |rest|
    {
      hide *;
      var d := Pick(rest);
      OneWaiter(waiters, pending - rest, d, path, waiters');
      waiters' := waiters'[d := (if d in waiters' then waiters'[d] else {}) + {path}];
      Taken(pending, rest, d);
      rest := rest - {d};
    }
    NoneLeft(pending, rest);
  }

  lemma {:induction false} NoWaiter(waiters: Deps, pending: set<Path>, path: Path)
    ensures WithWaiter(waiters, pending - pending, path) == waiters
  {
  }

  ghost predicate Told(pending: Deps, done: set<Path>, path: Path, ready: seq<Path>, pending': Deps, ready': seq<Path>) {
    pending' == PendingAfter(pending, done, path) && Joined(ready, Woken(pending, done, path), ready')
  }

  lemma {:induction false} TellOne(pending: Deps, done: set<Path>, w: Path, path: Path, ready: seq<Path>, pending': Deps, ready': seq<Path>,
                                   pending'': Deps, ready'': seq<Path>)
    requires Told(pending, done, path, ready, pending', ready') && w !in done
    requires w !in pending' ==> pending'' == pending' && ready'' == ready' + [w]
    requires w in pending' && pending'[w] - {path} != {} ==> pending'' == pending'[w := pending'[w] - {path}] && ready'' == ready'
    requires w in pending' && pending'[w] - {path} == {} ==> pending'' == pending' - {w} && ready'' == ready' + [w]
    ensures Told(pending, done + {w}, path, ready, pending'', ready'')
  {
    assert w in pending <==> w in pending';
    assert Woken(pending, done + {w}, path)
           == Woken(pending, done, path) + (if w in pending && pending[w] - {path} != {} then {} else {w});
    assert PendingAfter(pending, done + {w}, path) == pending'';
  }

  /** Tell the waiters of `path` that it completed; those that wait on nothing else join the ready queue. */
  method Tell(pending: Deps, popped: set<Path>, path: Path, ready: seq<Path>) returns (pending': Deps, ready': seq<Path>)
    ensures pending' == PendingAfter(pending, popped, path) && Joined(ready, Woken(pending, popped, path), ready')
  {
    pending', ready' := pending, ready;
    var rest := popped;
    NoneTold(pending, popped, path, ready);
    while rest != {}
      invariant rest <= popped && Told(pending, popped - rest, path, ready, pending', ready')
      decreases |rest|
    {
      hide *;
      var w := Pick(rest);
      ghost var pending0, ready0 := pending', ready';
      if w in pending' && pending'[w] - {path} != {} {
        pending' := pending'[w := pending'[w] - {path}];
      } else {
        pending' := pending' - {w};
        ready' := ready' + [w];
      }
      TellOne(pending, popped - rest, w, path, ready, pending0, ready0, pending', ready');
      Taken(popped, rest, w);
      rest := rest - {w};
    }
    NoneLeft(popped, rest);
  }

  lemma {:induction false} NoneTold(pending: Deps, popped: set<Path>, path: Path, ready: seq<Path>)
    ensures Told(pending, popped - popped, path, ready, pending, ready)
  {
  }
}
