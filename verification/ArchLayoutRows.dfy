/** Storing an ARCH's build layout as unordered rows and reading it back (parser/arch_layout.py). */
module ArchLayoutRows {
  import opened Basics

  datatype Path = Path(text: string)

  datatype Role = Source | Include | Link | Wrapper | Forced

  datatype Row = Row(role: Role, priority: nat, path: Path, target: Path)

  datatype Layout = Layout(arch: string, srcarch: string, sources: seq<Path>, includes: seq<Path>, links: map<Path, Path>,
                           wrappers: map<Path, Path>, forced: seq<Path>)

  const NO_TARGET := Path("")

  // ---------------------------------------------------------------- architecture trees

  /** The parts between slashes. */
  function Split(text: string): (r: seq<string>)
    ensures r != []
  {
    if text == [] then [""]
    else if text[0] == '/' then [""] + Split(text[1..])
    else var rest := Split(text[1..]); [[text[0]] + rest[0]] + rest[1..]
  }

  const ASM: string := "asm-"

  /** The architecture tree holding a path: `arch/<a>/...`, or `include/asm-<a>/...` other than asm-generic. */
  function PathArch(path: Path): Option<string> {
    var parts := Split(path.text);
    if |parts| > 2 then
      if parts[0] == "arch" then Some(parts[1])
      else if parts[0] == "include" && ASM <= parts[1] && parts[1] != "asm-generic" then Some(parts[1][|ASM|..])
      else None
    else None
  }

  lemma {:induction false} SplitPrefix(first: string, rest: string)
    requires '/' !in first
    ensures Split(first + "/" + rest) == [first] + Split(rest)
    decreases |first|
  {
    if first == [] {
      assert first + "/" + rest == "/" + rest;
      assert ("/" + rest)[1..] == rest;
    } else {
      SplitPrefix(first[1..], rest);
      assert (first + "/" + rest)[1..] == first[1..] + "/" + rest;
      assert first == [first[0]] + first[1..];
    }
  }

  /** The directory `arch/<a>/` belongs to the tree of `<a>`. */
  lemma {:induction false} ArchDirectory(a: string)
    requires '/' !in a
    ensures PathArch(Path("arch/" + a + "/")) == Some(a)
  {
    var text := "arch/" + a + "/";
    assert text == "arch" + "/" + (a + "/" + "");
    SplitPrefix("arch", a + "/" + "");
    SplitPrefix(a, "");
  }

  /** `include/asm-<a>/` belongs to it too, other than the generic one, and no other top-level directory belongs to a tree. */
  lemma {:induction false} OtherDirectories(first: string, second: string, rest: string)
    requires '/' !in first && '/' !in second && first != "arch"
    ensures PathArch(Path(first + "/" + second + "/" + rest)) ==
            if first == "include" && "asm-" <= second && second != "asm-generic" then Some(second[4..]) else None
  {
    var text := first + "/" + second + "/" + rest;
    assert text == first + "/" + (second + "/" + rest);
    SplitPrefix(first, second + "/" + rest);
    SplitPrefix(second, rest);
    hide Split;
    assert Split(text) == [first, second] + Split(rest);
  }

  /** A file at the top or in a top-level directory belongs to no tree. */
  lemma {:induction false} TopLevel(first: string, name: string)
    requires '/' !in first && '/' !in name
    ensures PathArch(Path(name)) == None && PathArch(Path(first + "/" + name)) == None
  {
    NoSlash(name);
    SplitPrefix(first, name);
  }

  lemma {:induction false} NoSlash(name: string)
    requires '/' !in name
    ensures Split(name) == [name]
  {
    if name != [] {
      NoSlash(name[1..]);
      assert name == [name[0]] + name[1..];
    }
  }

  /** The source architecture a layout's rows say: that of the first source directory, else the ARCH itself. */
  function DerivedSrcarch(arch: string, sources: seq<Path>): string {
    if sources == [] then arch
    else var a := PathArch(sources[0]); if a.None? || a.value == "" then arch else a.value
  }

  // ---------------------------------------------------------------- encoding

  function Listed(role: Role, paths: seq<Path>): (r: seq<Row>)
    ensures |r| == |paths| && forall i :: 0 <= i < |paths| ==> r[i] == Row(role, i, paths[i], NO_TARGET)
  {
    seq(|paths|, i requires 0 <= i < |paths| => Row(role, i, paths[i], NO_TARGET))
  }

  /** One row per entry of a map, in any order. */
  ghost predicate ListsMap(role: Role, m: map<Path, Path>, rows: seq<Row>) {
    && (forall i :: 0 <= i < |rows| ==> rows[i].path in m && rows[i] == Row(role, 0, rows[i].path, m[rows[i].path]))
    && (forall i, j :: 0 <= i < j < |rows| ==> rows[i].path != rows[j].path)
    && forall p :: p in m ==> Row(role, 0, p, m[p]) in rows
  }

  /** The rows of a layout. */
  ghost predicate Encodes(layout: Layout, rows: seq<Row>) {
    exists links, wrappers ::
      && ListsMap(Link, layout.links, links) && ListsMap(Wrapper, layout.wrappers, wrappers)
      && rows == Listed(Source, layout.sources) + Listed(Include, layout.includes) + links + wrappers + Listed(Forced, layout.forced)
  }

  method MapRows(role: Role, m: map<Path, Path>) returns (rows: seq<Row>)
    ensures ListsMap(role, m, rows)
  {
    rows := [];
    var rest := m.Keys;
    while rest != {}
      invariant rest <= m.Keys
      invariant forall i :: 0 <= i < |rows| ==> rows[i].path in m && rows[i].path !in rest && rows[i] == Row(role, 0, rows[i].path, m[rows[i].path])
      invariant forall i, j :: 0 <= i < j < |rows| ==> rows[i].path != rows[j].path
      invariant forall p :: p in m && p !in rest ==> Row(role, 0, p, m[p]) in rows
      decreases |rest|
    {
      var p := Pick(rest);
      rest, rows := rest - {p}, rows + [Row(role, 0, p, m[p])];
    }
  }

  method Rows(layout: Layout) returns (rows: seq<Row>)
    ensures Encodes(layout, rows)
  {
    var links := MapRows(Link, layout.links);
    var wrappers := MapRows(Wrapper, layout.wrappers);
    rows := Listed(Source, layout.sources) + Listed(Include, layout.includes) + links + wrappers + Listed(Forced, layout.forced);
  }

  // ---------------------------------------------------------------- decoding

  function OfRole(rows: seq<Row>, role: Role): seq<Row> {
    if rows == [] then []
    else var n := |rows| - 1; if rows[n].role == role then OfRole(rows[..n], role) + [rows[n]] else OfRole(rows[..n], role)
  }

  predicate TextBefore(a: string, b: string) {
    a == [] || (b != [] && (a[0] < b[0] || (a[0] == b[0] && TextBefore(a[1..], b[1..]))))
  }

  /** Rows compare by priority, then path, then target. */
  predicate Before(a: Row, b: Row) {
    || a.priority < b.priority
    || (a.priority == b.priority
        && if a.path == b.path then TextBefore(a.target.text, b.target.text) else TextBefore(a.path.text, b.path.text))
  }

  function Insert(sorted: seq<Row>, row: Row): seq<Row> {
    if sorted == [] then [row]
    else if Before(sorted[0], row) then [sorted[0]] + Insert(sorted[1..], row)
    else [row] + sorted
  }

  /** Rows by priority. */
  function Sorted(rows: seq<Row>): seq<Row> {
    if rows == [] then [] else Insert(Sorted(rows[..|rows|-1]), rows[|rows|-1])
  }

  function PathsOf(rows: seq<Row>): (r: seq<Path>)
    ensures |r| == |rows| && forall i :: 0 <= i < |rows| ==> r[i] == rows[i].path
  {
    seq(|rows|, i requires 0 <= i < |rows| => rows[i].path)
  }

  function MapOf(rows: seq<Row>): map<Path, Path> {
    if rows == [] then map[] else var n := |rows| - 1; MapOf(rows[..n])[rows[n].path := rows[n].target]
  }

  /** The layout some rows describe. */
  function Decoded(arch: string, rows: seq<Row>): Layout {
    var sources := PathsOf(Sorted(OfRole(rows, Source)));
    Layout(arch, DerivedSrcarch(arch, sources), sources, PathsOf(Sorted(OfRole(rows, Include))), MapOf(Sorted(OfRole(rows, Link))),
           MapOf(Sorted(OfRole(rows, Wrapper))), PathsOf(Sorted(OfRole(rows, Forced))))
  }

  method FromRows(arch: string, rows: seq<Row>) returns (layout: Layout)
    ensures layout == Decoded(arch, rows)
  {
    var ordered: map<Role, seq<Row>> := map[];
    for i := 0 to |rows|
      invariant forall role :: (if role in ordered then ordered[role] else []) == OfRole(rows[..i], role)
    {
      assert rows[..i + 1][..i] == rows[..i];
      var row := rows[i];
      ordered := ordered[row.role := (if row.role in ordered then ordered[row.role] else []) + [row]];
    }
    assert rows[..|rows|] == rows;
    layout := Layout(arch, arch, [], [], map[], map[], []);
    if Source in ordered {
      var items := Sort(ordered[Source]);
      layout := layout.(sources := PathsOf(items));
    }
    if Include in ordered {
      var items := Sort(ordered[Include]);
      layout := layout.(includes := PathsOf(items));
    }
    if Link in ordered {
      var items := Sort(ordered[Link]);
      layout := layout.(links := MapOf(items));
    }
    if Wrapper in ordered {
      var items := Sort(ordered[Wrapper]);
      layout := layout.(wrappers := MapOf(items));
    }
    if Forced in ordered {
      var items := Sort(ordered[Forced]);
      layout := layout.(forced := PathsOf(items));
    }
    layout := layout.(srcarch := DerivedSrcarch(arch, layout.sources));
  }

  method Sort(rows: seq<Row>) returns (sorted: seq<Row>)
    ensures sorted == Sorted(rows) && InOrder(sorted) && multiset(sorted) == multiset(rows)
    ensures forall i, j :: 0 <= i < j < |sorted| ==>
              && sorted[i].priority <= sorted[j].priority
              && (sorted[i].priority == sorted[j].priority ==> TextBefore(sorted[i].path.text, sorted[j].path.text))
              && (sorted[i].priority == sorted[j].priority && sorted[i].path == sorted[j].path ==>
                    TextBefore(sorted[i].target.text, sorted[j].target.text))
  {
    SortedInOrder(rows);
    SortedOk(rows);
    InOrderIs(Sorted(rows));
    hide InOrder, TextBefore;
    sorted := [];
    for i := 0 to |rows|
      invariant sorted == Sorted(rows[..i])
    {
      assert rows[..i + 1][..i] == rows[..i];
      sorted := Insert(sorted, rows[i]);
    }
    assert rows[..|rows|] == rows;
  }

  // ---------------------------------------------------------------- order does not matter

  lemma {:induction false} OfRoleCount(rows: seq<Row>, role: Role, row: Row)
    ensures multiset(OfRole(rows, role))[row] == if row.role == role then multiset(rows)[row] else 0
    decreases |rows|
  {
    if rows != [] {
      var n := |rows| - 1;
      OfRoleCount(rows[..n], role, row);
      assert rows == rows[..n] + [rows[n]];
    }
  }

  /** Shuffled rows have the same rows of every role. */
  lemma {:induction false} OfRoleShuffled(rows: seq<Row>, rows': seq<Row>, role: Role)
    requires multiset(rows) == multiset(rows')
    ensures multiset(OfRole(rows, role)) == multiset(OfRole(rows', role))
  {
    forall row ensures multiset(OfRole(rows, role))[row] == multiset(OfRole(rows', role))[row] {
      OfRoleCount(rows, role, row);
      OfRoleCount(rows', role, row);
    }
  }

  lemma {:induction false} OfRoleConcat(a: seq<Row>, b: seq<Row>, role: Role)
    ensures OfRole(a + b, role) == OfRole(a, role) + OfRole(b, role)
    decreases |b|
  {
    if b == [] {
      assert a + b == a;
    } else {
      var n := |b| - 1;
      OfRoleConcat(a, b[..n], role);
      assert (a + b)[..|a + b| - 1] == a + b[..n];
    }
  }

  lemma {:induction false} OfRoleAll(rows: seq<Row>, role: Role, other: Role)
    requires forall i :: 0 <= i < |rows| ==> rows[i].role == other
    ensures OfRole(rows, role) == if role == other then rows else []
    decreases |rows|
  {
    if rows != [] {
      var n := |rows| - 1;
      OfRoleAll(rows[..n], role, other);
      assert rows == rows[..n] + [rows[n]];
    }
  }

  predicate InOrder(rows: seq<Row>) {
    forall i, j :: 0 <= i < j < |rows| ==> Before(rows[i], rows[j])
  }

  lemma {:induction false} InOrderIs(rows: seq<Row>)
    requires InOrder(rows)
    ensures forall i, j :: 0 <= i < j < |rows| ==>
              && rows[i].priority <= rows[j].priority
              && (rows[i].priority == rows[j].priority ==> TextBefore(rows[i].path.text, rows[j].path.text))
              && (rows[i].priority == rows[j].priority && rows[i].path == rows[j].path ==> TextBefore(rows[i].target.text, rows[j].target.text))
  {
    forall i, j | 0 <= i < j < |rows|
      ensures rows[i].priority <= rows[j].priority
      ensures rows[i].priority == rows[j].priority ==> TextBefore(rows[i].path.text, rows[j].path.text)
      ensures rows[i].priority == rows[j].priority && rows[i].path == rows[j].path ==> TextBefore(rows[i].target.text, rows[j].target.text)
    {
      assert Before(rows[i], rows[j]);
      TextTotal(rows[i].path.text, rows[j].path.text);
    }
  }

  /** Texts compare at the first character in which they differ; a prefix comes first. */
  lemma {:induction false} TextBeforeIs(a: string, b: string)
    ensures TextBefore(a, b) <==> a <= b || exists k :: 0 <= k < |a| && k < |b| && a[..k] == b[..k] && a[k] < b[k]
    decreases |a|
  {
    if a != [] && b != [] && a[0] == b[0] {
      var a', b' := a[1..], b[1..];
      TextBeforeIs(a', b');
      assert a == [a[0]] + a' && b == [b[0]] + b';
      if k :| 0 <= k < |a'| && k < |b'| && a'[..k] == b'[..k] && a'[k] < b'[k] {
        assert a[..k + 1] == [a[0]] + a'[..k] && b[..k + 1] == [b[0]] + b'[..k];
      }
      if k :| 0 <= k < |a| && k < |b| && a[..k] == b[..k] && a[k] < b[k] {
        assert a'[..k - 1] == a[..k][1..] && b'[..k - 1] == b[..k][1..];
      }
    } else if a != [] && b != [] && a[0] < b[0] {
      assert a[..0] == b[..0];
    } else if a != [] && b != [] {
      forall k | 0 < k < |a| && k < |b| ensures a[..k] != b[..k] {
        assert a[..k][0] == a[0] && b[..k][0] == b[0];
      }
    }
  }

  lemma {:induction false} TextTotal(a: string, b: string)
    ensures TextBefore(a, b) || TextBefore(b, a)
    ensures TextBefore(a, b) && TextBefore(b, a) ==> a == b
    decreases |a|
  {
    if a != [] && b != [] && a[0] == b[0] {
      TextTotal(a[1..], b[1..]);
      assert a == [a[0]] + a[1..] && b == [b[0]] + b[1..];
    }
  }

  lemma {:induction false} TextTransitive(a: string, b: string, c: string)
    requires TextBefore(a, b) && TextBefore(b, c)
    ensures TextBefore(a, c)
    decreases |a|
  {
    if a != [] && a[0] == b[0] && b[0] == c[0] {
      TextTransitive(a[1..], b[1..], c[1..]);
    }
  }

  lemma {:induction false} BeforeTransitive(a: Row, b: Row, c: Row)
    requires Before(a, b) && Before(b, c)
    ensures Before(a, c)
  {
    if a.path == b.path && b.path == c.path && TextBefore(a.target.text, b.target.text) && TextBefore(b.target.text, c.target.text) {
      TextTransitive(a.target.text, b.target.text, c.target.text);
    }
    if TextBefore(a.path.text, b.path.text) && TextBefore(b.path.text, c.path.text) {
      TextTransitive(a.path.text, b.path.text, c.path.text);
    }
    TextTotal(a.path.text, b.path.text);
    assert a.path == Path(a.path.text) && b.path == Path(b.path.text);
  }

  lemma {:induction false} NotBefore(a: Row, b: Row)
    requires !Before(a, b)
    ensures Before(b, a)
  {
    TextTotal(a.path.text, b.path.text);
    TextTotal(a.target.text, b.target.text);
  }

  lemma {:induction false} InsertInOrder(sorted: seq<Row>, row: Row)
    requires InOrder(sorted)
    ensures InOrder(Insert(sorted, row)) && forall x :: x in Insert(sorted, row) <==> x in sorted || x == row
    decreases |sorted|
  {
    if sorted != [] {
      var head, tail := sorted[0], sorted[1..];
      assert sorted == [head] + tail;
      hide Before;
      if Before(head, row) {
        InsertInOrder(tail, row);
        hide Insert;
        ConsInOrder(head, Insert(tail, row));
      } else {
        NotBefore(head, row);
        forall x | x in sorted ensures Before(row, x) {
          if x != head {
            BeforeTransitive(row, head, x);
          }
        }
        ConsInOrder(row, sorted);
      }
    }
  }

  lemma {:induction false} ConsInOrder(row: Row, rows: seq<Row>)
    requires InOrder(rows) && forall x :: x in rows ==> Before(row, x)
    ensures InOrder([row] + rows)
  {
    hide Before;
    var all := [row] + rows;
    forall i, j | 0 <= i < j < |all| ensures Before(all[i], all[j]) {
      assert all[j] == rows[j - 1] && rows[j - 1] in rows;
      assert i > 0 ==> all[i] == rows[i - 1];
    }
  }

  lemma {:induction false} SortedInOrder(rows: seq<Row>)
    ensures InOrder(Sorted(rows))
    decreases |rows|
  {
    if rows != [] {
      SortedInOrder(rows[..|rows|-1]);
      InsertInOrder(Sorted(rows[..|rows|-1]), rows[|rows|-1]);
    }
  }

  predicate ByPriority(rows: seq<Row>) {
    forall i, j :: 0 <= i < j < |rows| ==> rows[i].priority <= rows[j].priority
  }

  lemma {:induction false} InsertAdds(sorted: seq<Row>, row: Row)
    ensures multiset(Insert(sorted, row)) == multiset(sorted) + multiset{row}
    decreases |sorted|
  {
    if sorted != [] {
      InsertAdds(sorted[1..], row);
      assert sorted == [sorted[0]] + sorted[1..];
    }
  }

  predicate AllAtLeast(rows: seq<Row>, least: nat) {
    forall i :: 0 <= i < |rows| ==> least <= rows[i].priority
  }

  lemma {:induction false} InsertAtLeast(sorted: seq<Row>, row: Row, least: nat)
    requires AllAtLeast(sorted, least) && least <= row.priority
    ensures AllAtLeast(Insert(sorted, row), least)
    decreases |sorted|
  {
    if sorted != [] {
      InsertAtLeast(sorted[1..], row, least);
    }
  }

  lemma {:induction false} ConsByPriority(row: Row, rows: seq<Row>)
    requires ByPriority(rows) && AllAtLeast(rows, row.priority)
    ensures ByPriority([row] + rows)
  {
  }

  lemma {:induction false} InsertOk(sorted: seq<Row>, row: Row)
    requires ByPriority(sorted)
    ensures ByPriority(Insert(sorted, row)) && multiset(Insert(sorted, row)) == multiset(sorted) + multiset{row}
    decreases |sorted|
  {
    InsertAdds(sorted, row);
    if sorted != [] {
      var tail := sorted[1..];
      assert ByPriority(tail) && AllAtLeast(tail, sorted[0].priority);
      if Before(sorted[0], row) {
        InsertOk(tail, row);
        InsertAtLeast(tail, row, sorted[0].priority);
        ConsByPriority(sorted[0], Insert(tail, row));
      } else {
        assert AllAtLeast(sorted, row.priority);
        ConsByPriority(row, sorted);
      }
    }
  }

  lemma {:induction false} SortedOk(rows: seq<Row>)
    ensures ByPriority(Sorted(rows)) && multiset(Sorted(rows)) == multiset(rows)
    decreases |rows|
  {
    if rows != [] {
      var n := |rows| - 1;
      SortedOk(rows[..n]);
      InsertOk(Sorted(rows[..n]), rows[n]);
      assert rows == rows[..n] + [rows[n]];
    }
  }

  predicate DistinctPriorities(rows: seq<Row>) {
    forall i, j :: 0 <= i < j < |rows| ==> rows[i].priority < rows[j].priority
  }

  lemma {:induction false} SameHead(a: seq<Row>, b: seq<Row>)
    requires ByPriority(a) && DistinctPriorities(b) && multiset(a) == multiset(b) && a != [] && b != []
    ensures a[0] == b[0]
  {
    assert a[0] in multiset(b) && b[0] in multiset(a);
    var i :| 0 <= i < |b| && b[i] == a[0];
    var j :| 0 <= j < |a| && a[j] == b[0];
    assert a[0].priority <= a[j].priority;
    assert i == 0;
  }

  lemma {:induction false} TailOf(a: seq<Row>)
    requires a != []
    ensures multiset(a[1..]) == multiset(a) - multiset{a[0]}
  {
    assert a == [a[0]] + a[1..];
  }

  /** Rows with distinct priorities have one order. */
  lemma {:induction false} OneOrder(a: seq<Row>, b: seq<Row>)
    requires ByPriority(a) && DistinctPriorities(b) && multiset(a) == multiset(b)
    ensures a == b
    decreases |a|
  {
    assert |a| == |multiset(a)| && |b| == |multiset(b)|;
    if a != [] {
      SameHead(a, b);
      TailOf(a);
      TailOf(b);
      assert ByPriority(a[1..]) && DistinctPriorities(b[1..]);
      hide ByPriority, DistinctPriorities;
      OneOrder(a[1..], b[1..]);
      assert a == [a[0]] + a[1..] && b == [b[0]] + b[1..];
    }
  }

  /** A list read back from shuffled rows. */
  lemma {:induction false} ListBack(rows: seq<Row>, role: Role, paths: seq<Path>)
    requires multiset(OfRole(rows, role)) == multiset(Listed(role, paths))
    ensures PathsOf(Sorted(OfRole(rows, role))) == paths
  {
    SortedOk(OfRole(rows, role));
    OneOrder(Sorted(OfRole(rows, role)), Listed(role, paths));
  }

  lemma {:induction false} MapOfAt(rows: seq<Row>, m: map<Path, Path>)
    requires forall i :: 0 <= i < |rows| ==> rows[i].path in m && rows[i].target == m[rows[i].path]
    ensures forall p :: p in MapOf(rows) <==> exists i :: 0 <= i < |rows| && rows[i].path == p
    ensures forall p :: p in MapOf(rows) ==> p in m && MapOf(rows)[p] == m[p]
    decreases |rows|
  {
    if rows != [] {
      var n := |rows| - 1;
      MapOfAt(rows[..n], m);
      forall p ensures p in MapOf(rows) <==> exists i :: 0 <= i < |rows| && rows[i].path == p {
        if i :| 0 <= i < n && rows[..n][i].path == p {
          assert rows[i].path == p;
        }
        if i :| 0 <= i < |rows| && rows[i].path == p {
          assert i == n || rows[..n][i].path == p;
        }
      }
    }
  }

  /** A map read back from shuffled rows. */
  lemma {:induction false} MapBack(rows: seq<Row>, role: Role, m: map<Path, Path>, listed: seq<Row>)
    requires ListsMap(role, m, listed) && multiset(OfRole(rows, role)) == multiset(listed)
    ensures MapOf(Sorted(OfRole(rows, role))) == m
  {
    var sorted := Sorted(OfRole(rows, role));
    SortedOk(OfRole(rows, role));
    forall i | 0 <= i < |sorted| ensures sorted[i].path in m && sorted[i].target == m[sorted[i].path] {
      assert sorted[i] in multiset(sorted);
      assert sorted[i] in listed;
    }
    MapOfAt(sorted, m);
    forall p | p in m ensures p in MapOf(sorted) {
      var row := Row(role, 0, p, m[p]);
      assert row in multiset(listed) && row in multiset(sorted);
      var i :| 0 <= i < |sorted| && sorted[i] == row;
      assert sorted[i].path == p;
    }
  }

  lemma {:induction false} PartOf(s: seq<Row>, i: seq<Row>, l: seq<Row>, w: seq<Row>, f: seq<Row>, role: Role)
    requires forall k :: 0 <= k < |s| ==> s[k].role == Source
    requires forall k :: 0 <= k < |i| ==> i[k].role == Include
    requires forall k :: 0 <= k < |l| ==> l[k].role == Link
    requires forall k :: 0 <= k < |w| ==> w[k].role == Wrapper
    requires forall k :: 0 <= k < |f| ==> f[k].role == Forced
    ensures OfRole(s + i + l + w + f, role) == match role case Source => s case Include => i case Link => l case Wrapper => w case Forced => f
  {
    hide OfRole;
    OfRoleConcat(s + i + l + w, f, role);
    OfRoleConcat(s + i + l, w, role);
    OfRoleConcat(s + i, l, role);
    OfRoleConcat(s, i, role);
    OfRoleAll(s, role, Source);
    OfRoleAll(i, role, Include);
    OfRoleAll(l, role, Link);
    OfRoleAll(w, role, Wrapper);
    OfRoleAll(f, role, Forced);
  }

  /** Reading back any shuffling of a layout's rows gives the layout, exactly when its source architecture is the one its
      first source directory says. */
  lemma {:induction false} RoundTrip(layout: Layout, rows: seq<Row>, shuffled: seq<Row>)
    requires Encodes(layout, rows) && multiset(shuffled) == multiset(rows)
    ensures Decoded(layout.arch, shuffled) == layout.(srcarch := DerivedSrcarch(layout.arch, layout.sources))
    ensures Decoded(layout.arch, shuffled) == layout <==> layout.srcarch == DerivedSrcarch(layout.arch, layout.sources)
  {
    hide OfRole, Sorted, ListsMap, Listed, DerivedSrcarch, Encodes, PathsOf, MapOf;
    var links, wrappers := Shuffled(layout, rows, shuffled);
    ListBack(shuffled, Source, layout.sources);
    ListBack(shuffled, Include, layout.includes);
    ListBack(shuffled, Forced, layout.forced);
    MapBack(shuffled, Link, layout.links, links);
    MapBack(shuffled, Wrapper, layout.wrappers, wrappers);
  }

  /** The shuffled rows of each role are those of the layout. */
  lemma {:induction false} Shuffled(layout: Layout, rows: seq<Row>, shuffled: seq<Row>) returns (links: seq<Row>, wrappers: seq<Row>)
    requires Encodes(layout, rows) && multiset(shuffled) == multiset(rows)
    ensures ListsMap(Link, layout.links, links) && ListsMap(Wrapper, layout.wrappers, wrappers)
    ensures multiset(OfRole(shuffled, Source)) == multiset(Listed(Source, layout.sources))
    ensures multiset(OfRole(shuffled, Include)) == multiset(Listed(Include, layout.includes))
    ensures multiset(OfRole(shuffled, Forced)) == multiset(Listed(Forced, layout.forced))
    ensures multiset(OfRole(shuffled, Link)) == multiset(links) && multiset(OfRole(shuffled, Wrapper)) == multiset(wrappers)
  {
    links, wrappers :| ListsMap(Link, layout.links, links) && ListsMap(Wrapper, layout.wrappers, wrappers)
      && rows == Listed(Source, layout.sources) + Listed(Include, layout.includes) + links + wrappers + Listed(Forced, layout.forced);
    hide Listed, OfRole, Encodes;
    assert (forall k :: 0 <= k < |links| ==> links[k].role == Link) && (forall k :: 0 <= k < |wrappers| ==> wrappers[k].role == Wrapper);
    hide ListsMap;
    var s, i, f := Listed(Source, layout.sources), Listed(Include, layout.includes), Listed(Forced, layout.forced);
    RoleShuffled(s, i, links, wrappers, f, shuffled, Source);
    RoleShuffled(s, i, links, wrappers, f, shuffled, Include);
    RoleShuffled(s, i, links, wrappers, f, shuffled, Link);
    RoleShuffled(s, i, links, wrappers, f, shuffled, Wrapper);
    RoleShuffled(s, i, links, wrappers, f, shuffled, Forced);
  }

  lemma {:induction false} RoleShuffled(s: seq<Row>, i: seq<Row>, l: seq<Row>, w: seq<Row>, f: seq<Row>, shuffled: seq<Row>, role: Role)
    requires forall k :: 0 <= k < |s| ==> s[k].role == Source
    requires forall k :: 0 <= k < |i| ==> i[k].role == Include
    requires forall k :: 0 <= k < |l| ==> l[k].role == Link
    requires forall k :: 0 <= k < |w| ==> w[k].role == Wrapper
    requires forall k :: 0 <= k < |f| ==> f[k].role == Forced
    requires multiset(shuffled) == multiset(s + i + l + w + f)
    ensures multiset(OfRole(shuffled, role)) == multiset(match role case Source => s case Include => i case Link => l case Wrapper => w case Forced => f)
  {
    hide OfRole;
    OfRoleShuffled(shuffled, s + i + l + w + f, role);
    PartOf(s, i, l, w, f, role);
  }

  /** Layouts are built with `arch/<srcarch>/` as their first source directory, so they read back unchanged. */
  lemma {:induction false} BuiltLayoutsReadBack(layout: Layout, rows: seq<Row>, shuffled: seq<Row>)
    requires Encodes(layout, rows) && multiset(shuffled) == multiset(rows)
    requires layout.srcarch != "" && '/' !in layout.srcarch
    requires layout.sources != [] && layout.sources[0] == Path("arch/" + layout.srcarch + "/")
    ensures Decoded(layout.arch, shuffled) == layout
  {
    ArchDirectory(layout.srcarch);
    RoundTrip(layout, rows, shuffled);
  }
}
