/** Include resolution and reachability (parser/include_graph.py): a breadth-first walk with parent links from several
    roots, and the chain that explains why a file is read. */
module IncludeGraph {
  import opened Basics

  datatype Path = Path(text: string)

  datatype Directive = Directive(name: string, quoted: bool)

  /** One revision under one build layout: generated wrappers, file and directory links (longest first), the files of the
      tree, the include directories, and the includes of every file. `dirOf` and `join` stand for the directory of a path
      and for a name below a directory, normalized. */
  datatype Tree = Tree(wrappers: map<Path, Path>, fileLinks: map<Path, Path>, dirLinks: seq<(Path, Path)>, isFile: Path -> bool,
                       includes: seq<Path>, dirOf: Path -> Path, join: (Path, string) -> Path, directives: Path -> seq<Directive>)

  const MAX_LINK_HOPS := 8
  const MAX_CHAIN := 64

  // ---------------------------------------------------------------- links

  function LinkAt(links: seq<(Path, Path)>, path: Path): Option<(Path, Path)> {
    if links == [] then None else if links[0].0.text <= path.text then Some(links[0]) else LinkAt(links[1..], path)
  }

  /** One step through a wrapper or a link. */
  function Hop(t: Tree, path: Path): Option<Path> {
    if path in t.wrappers then Some(t.wrappers[path])
    else if path in t.fileLinks then Some(t.fileLinks[path])
    else
      var link := LinkAt(t.dirLinks, path);
      if link.Some? && |link.value.0.text| <= |path.text| then Some(Path(link.value.1.text + path.text[|link.value.0.text|..])) else None
  }

  function Follow(t: Tree, path: Path, hops: nat): Path
    decreases hops
  {
    if hops == 0 || Hop(t, path).None? then path else Follow(t, Hop(t, path).value, hops - 1)
  }

  function Designated(t: Tree, path: Path): Option<Path> {
    var end := Follow(t, path, MAX_LINK_HOPS);
    if t.isFile(end) then Some(end) else None
  }

  /** Where a build-time path leads: to what a generated wrapper includes, else to the target of a link of the file, else
      through the first directory link that is a prefix of it. */
  ghost predicate LeadsTo(t: Tree, a: Path, b: Path) {
    if a in t.wrappers then b == t.wrappers[a]
    else if a in t.fileLinks then b == t.fileLinks[a]
    else exists i :: 0 <= i < |t.dirLinks| && FirstPrefix(t.dirLinks, a, i) && b.text == t.dirLinks[i].1.text + a.text[|t.dirLinks[i].0.text|..]
  }

  /** Nothing replaces the path. */
  predicate Ends(t: Tree, a: Path) {
    a !in t.wrappers && a !in t.fileLinks && forall i :: 0 <= i < |t.dirLinks| ==> !(t.dirLinks[i].0.text <= a.text)
  }

  predicate FirstPrefix(links: seq<(Path, Path)>, a: Path, i: nat) {
    i < |links| && links[i].0.text <= a.text && forall j :: 0 <= j < i ==> !(links[j].0.text <= a.text)
  }

  lemma {:induction false} LinkAtIs(links: seq<(Path, Path)>, path: Path)
    ensures LinkAt(links, path).None? ==> forall i :: 0 <= i < |links| ==> !FirstPrefix(links, path, i)
    ensures LinkAt(links, path).Some? ==> forall i: nat :: FirstPrefix(links, path, i) ==> LinkAt(links, path) == Some(links[i])
    ensures LinkAt(links, path).Some? ==> exists i: nat :: FirstPrefix(links, path, i)
    decreases |links|
  {
    if links != [] {
      var rest := links[1..];
      LinkAtIs(rest, path);
      if links[0].0.text <= path.text {
        assert FirstPrefix(links, path, 0);
      } else {
        forall i: nat | FirstPrefix(links, path, i) ensures i > 0 && FirstPrefix(rest, path, i - 1) && links[i] == rest[i - 1] {
          forall j | 0 <= j < i - 1 ensures !(rest[j].0.text <= path.text) {
            assert rest[j] == links[j + 1];
          }
        }
        if LinkAt(rest, path).Some? {
          var i: nat :| FirstPrefix(rest, path, i);
          forall j | 0 <= j < i + 1 ensures !(links[j].0.text <= path.text) {
            assert j > 0 ==> links[j] == rest[j - 1];
          }
          assert links[i + 1] == rest[i];
          assert FirstPrefix(links, path, i + 1);
        }
      }
    }
  }

  lemma {:induction false} HopIs(t: Tree, a: Path, b: Path)
    ensures LeadsTo(t, a, b) <==> Hop(t, a) == Some(b)
  {
    LinkAtIs(t.dirLinks, a);
    hide LinkAt;
    if a !in t.wrappers && a !in t.fileLinks && LinkAt(t.dirLinks, a).Some? {
      var i: nat :| FirstPrefix(t.dirLinks, a, i);
      assert Hop(t, a) == Some(Path(t.dirLinks[i].1.text + a.text[|t.dirLinks[i].0.text|..]));
      forall k: nat | FirstPrefix(t.dirLinks, a, k) ensures k == i {
        OneFirst(t.dirLinks, a, i, k);
      }
    }
  }

  lemma {:induction false} OneFirst(links: seq<(Path, Path)>, a: Path, i: nat, k: nat)
    requires FirstPrefix(links, a, i) && FirstPrefix(links, a, k)
    ensures i == k
  {
  }

  lemma {:induction false} EndIs(t: Tree, a: Path)
    ensures Ends(t, a) <==> Hop(t, a).None?
  {
    NoLink(t.dirLinks, a);
    hide LinkAt;
  }

  lemma {:induction false} NoLink(links: seq<(Path, Path)>, path: Path)
    ensures LinkAt(links, path).None? <==> forall i :: 0 <= i < |links| ==> !(links[i].0.text <= path.text)
    ensures LinkAt(links, path).Some? ==> LinkAt(links, path).value.0.text <= path.text
    decreases |links|
  {
    if links != [] {
      NoLink(links[1..], path);
      assert forall i :: 0 <= i < |links| - 1 ==> links[1..][i] == links[i + 1];
    }
  }

  /** A path's hops, at most eight of them: to where no hop leads further, or to the eighth. */
  ghost predicate HopsFrom(t: Tree, path: Path, chain: seq<Path>) {
    && 1 <= |chain| <= 9 && chain[0] == path
    && (forall i :: 0 <= i < |chain| - 1 ==> LeadsTo(t, chain[i], chain[i + 1]))
    && (|chain| == 9 || Ends(t, chain[|chain|-1]))
  }

  lemma {:induction false} FollowHops(t: Tree, chain: seq<Path>, hops: nat)
    requires 1 <= |chain| <= hops + 1 && forall i :: 0 <= i < |chain| - 1 ==> LeadsTo(t, chain[i], chain[i + 1])
    requires |chain| == hops + 1 || Ends(t, chain[|chain|-1])
    ensures Follow(t, chain[0], hops) == chain[|chain|-1]
    decreases |chain|
  {
    hide LeadsTo, Hop, Ends;
    if |chain| == 1 {
      EndIs(t, chain[0]);
    } else {
      assert LeadsTo(t, chain[0], chain[1]);
      HopIs(t, chain[0], chain[1]);
      var rest := chain[1..];
      forall i | 0 <= i < |rest| - 1 ensures LeadsTo(t, rest[i], rest[i + 1]) {
        assert LeadsTo(t, chain[i + 1], chain[i + 2]);
      }
      FollowHops(t, rest, hops - 1);
    }
  }

  /** A path designates the tree file at the end of its hops, if there is one. */
  lemma {:induction false} DesignatedAtTheEnd(t: Tree, path: Path, chain: seq<Path>)
    requires HopsFrom(t, path, chain)
    ensures Designated(t, path) == if t.isFile(chain[|chain|-1]) then Some(chain[|chain|-1]) else None
  {
    hide LeadsTo, Follow;
    FollowHops(t, chain, 8);
  }

  /** The longest directory link that is a prefix of the path is taken. */
  lemma {:induction false} LongestLink(links: seq<(Path, Path)>, path: Path, k: nat)
    requires forall i, j :: 0 <= i < j < |links| ==> |links[i].0.text| >= |links[j].0.text|
    requires k < |links| && links[k].0.text <= path.text
    ensures LinkAt(links, path).Some? && LinkAt(links, path).value.0.text <= path.text
    ensures |LinkAt(links, path).value.0.text| >= |links[k].0.text|
    decreases |links|
  {
    if !(links[0].0.text <= path.text) {
      LongestLink(links[1..], path, k - 1);
    }
  }

  /** Following more hops than a chain of links has changes nothing: the tree file at its end is found. */
  lemma {:induction false} FollowsToTheEnd(t: Tree, path: Path, n: nat, more: nat)
    requires n <= more && Hop(t, Follow(t, path, n)).None?
    ensures Follow(t, path, more) == Follow(t, path, n)
    decreases n
  {
    if n > 0 && Hop(t, path).Some? {
      FollowsToTheEnd(t, Hop(t, path).value, n - 1, more - 1);
    }
  }

  /** The tree file a build-time path designates. */
  method Materialize(t: Tree, path: Path) returns (file: Option<Path>)
    ensures file == Designated(t, path)
  {
    var at := path;
    var hops := 0;
    while hops < MAX_LINK_HOPS
      invariant hops <= MAX_LINK_HOPS && Follow(t, at, MAX_LINK_HOPS - hops) == Follow(t, path, MAX_LINK_HOPS)
    {
      var hop := Hop(t, at);
      if hop.None? {
        break;
      }
      at, hops := hop.value, hops + 1;
    }
    return if t.isFile(at) then Some(at) else None;
  }

  /** Where an include is looked for: beside the including file if quoted, then in the include directories. */
  function Dirs(t: Tree, from: Path, quoted: bool): seq<Path> {
    (if quoted && from.text != "" then [t.dirOf(from)] else []) + t.includes
  }

  /** The path leaves the tree. */
  predicate Escapes(path: Path) {
    "../" <= path.text || path.text == ".."
  }

  /** What the name means below one directory. */
  function HitIn(t: Tree, dir: Path, name: string): Option<Path> {
    var candidate := t.join(dir, name);
    if Escapes(candidate) then None
    else
      var hit := Designated(t, candidate);
      if hit.Some? && hit.value.text != "" then hit else None
  }

  function FirstHit(t: Tree, dirs: seq<Path>, name: string): Option<Path> {
    if dirs == [] then None else if HitIn(t, dirs[0], name).Some? then HitIn(t, dirs[0], name) else FirstHit(t, dirs[1..], name)
  }

  function ResolvedTo(t: Tree, from: Path, d: Directive): Option<Path> {
    var name := Strip(d.name);
    if name == "" || name[0] == '/' then None else FirstHit(t, Dirs(t, from, d.quoted), name)
  }

  /** The first directory with a hit decides; without a hit there is none anywhere. */
  lemma {:induction false} FirstHitIs(t: Tree, dirs: seq<Path>, name: string)
    ensures FirstHit(t, dirs, name).None? ==> forall i :: 0 <= i < |dirs| ==> HitIn(t, dirs[i], name).None?
    ensures FirstHit(t, dirs, name).Some? ==>
              exists i :: 0 <= i < |dirs| && HitIn(t, dirs[i], name) == FirstHit(t, dirs, name) && forall j :: 0 <= j < i ==> HitIn(t, dirs[j], name).None?
    decreases |dirs|
  {
    if dirs != [] {
      var rest := dirs[1..];
      FirstHitIs(t, rest, name);
      assert HitIn(t, dirs[0], name).None? ==> FirstHit(t, dirs, name) == FirstHit(t, rest, name);
      hide FirstHit, HitIn;
      assert forall i :: 1 <= i < |dirs| ==> rest[i - 1] == dirs[i];
      if HitIn(t, dirs[0], name).None? && FirstHit(t, rest, name).Some? {
        var i :| 0 <= i < |rest| && HitIn(t, rest[i], name) == FirstHit(t, rest, name) && forall j :: 0 <= j < i ==> HitIn(t, rest[j], name).None?;
        forall j | 0 <= j < i + 1 ensures HitIn(t, dirs[j], name).None? {
          assert j > 0 ==> dirs[j] == rest[j - 1];
        }
        assert dirs[i + 1] == rest[i];
      }
    }
  }

  /** What an include reads is a file of the tree. */
  lemma {:induction false} HitIsFile(t: Tree, dirs: seq<Path>, name: string)
    ensures FirstHit(t, dirs, name).Some? ==> t.isFile(FirstHit(t, dirs, name).value)
    decreases |dirs|
  {
    if dirs != [] {
      HitIsFile(t, dirs[1..], name);
    }
  }

  /** The first of the directories with a hit. */
  ghost predicate InDirectories(t: Tree, dirs: seq<Path>, name: string, file: Option<Path>) {
    if file.None? then forall i :: 0 <= i < |dirs| ==> HitIn(t, dirs[i], name).None?
    else exists i :: 0 <= i < |dirs| && HitIn(t, dirs[i], name) == file && forall j :: 0 <= j < i ==> HitIn(t, dirs[j], name).None?
  }

  /** A quoted name beside the including file wins; otherwise the include directories are searched in order. */
  lemma {:induction false} BesideFirst(t: Tree, from: Path, d: Directive)
    ensures var name := Strip(d.name);
            name != "" && name[0] != '/' ==>
              if d.quoted && from.text != "" && HitIn(t, t.dirOf(from), name).Some? then ResolvedTo(t, from, d) == HitIn(t, t.dirOf(from), name)
              else InDirectories(t, t.includes, name, ResolvedTo(t, from, d))
  {
    hide HitIn, Strip;
    var name, dirs := Strip(d.name), Dirs(t, from, d.quoted);
    FirstHitIs(t, t.includes, name);
    if d.quoted && from.text != "" {
      assert dirs[0] == t.dirOf(from) && dirs[1..] == t.includes;
    } else {
      assert dirs == t.includes;
    }
  }

  /** A name that leaves the tree reads nothing; any other reads what its path designates. */
  lemma {:induction false} InsideTheTree(t: Tree, dir: Path, name: string)
    ensures var path := t.join(dir, name);
            HitIn(t, dir, name) == if "../" <= path.text || path.text == ".." || Designated(t, path) == Some(Path("")) then None else Designated(t, path)
  {
    hide Designated;
  }

  /** The tree file an include reads. A quoted name is looked for beside the including file first. */
  method Resolve(t: Tree, from: Path, d: Directive) returns (file: Option<Path>)
    ensures file == ResolvedTo(t, from, d) && (file.Some? ==> t.isFile(file.value))
    ensures var name, dirs := Strip(d.name), Dirs(t, from, d.quoted);
            if name == "" || name[0] == '/' then file == None
            else if file.None? then forall i :: 0 <= i < |dirs| ==> HitIn(t, dirs[i], name).None?
            else exists i :: 0 <= i < |dirs| && HitIn(t, dirs[i], name) == file && forall j :: 0 <= j < i ==> HitIn(t, dirs[j], name).None?
    ensures var name := Strip(d.name);
            name != "" && name[0] != '/' ==>
              if d.quoted && from.text != "" && HitIn(t, t.dirOf(from), name).Some? then file == HitIn(t, t.dirOf(from), name)
              else InDirectories(t, t.includes, name, file)
  {
    BesideFirst(t, from, d);
    var name := Strip(d.name);
    if name == "" || name[0] == '/' {
      return None;
    }
    var dirs := Dirs(t, from, d.quoted);
    FirstHitIs(t, dirs, name);
    HitIsFile(t, dirs, name);
    hide Designated, Strip, Dirs;
    for i := 0 to |dirs|
      invariant FirstHit(t, dirs, name) == FirstHit(t, dirs[i..], name)
    {
      assert dirs[i..][1..] == dirs[i + 1..];
      var candidate := t.join(dirs[i], name);
      if !Escapes(candidate) {
        var hit := Materialize(t, candidate);
        if hit.Some? && hit.value.text != "" {
          return hit;
        }
      }
    }
    return None;
  }

  // ---------------------------------------------------------------- the include graph

  /** `from` contains an include that reads `to`. */
  ghost predicate Includes(t: Tree, from: Path, to: Path) {
    exists i :: 0 <= i < |t.directives(from)| && ResolvedTo(t, from, t.directives(from)[i]) == Some(to)
  }

  predicate Root(t: Tree, roots: seq<Path>, p: Path) {
    p in roots && p.text != "" && t.isFile(p)
  }

  /** A walk along includes from a root. */
  ghost predicate Walk(t: Tree, roots: seq<Path>, walk: seq<Path>) {
    && walk != [] && Root(t, roots, walk[0])
    && forall i :: 0 <= i < |walk| - 1 ==> Includes(t, walk[i], walk[i + 1])
  }

  // ---------------------------------------------------------------- breadth-first search

  /** Files in the order they were found, how many of them have been expanded, who included each, and its depth. */
  datatype Found = Found(order: seq<Path>, done: nat, parents: map<Path, Option<Path>>, depth: map<Path, nat>)

  function Depth(s: Found, p: Path): nat {
    if p in s.depth then s.depth[p] else 0
  }

  function Parent(s: Found, p: Path): Option<Path> {
    if p in s.parents then s.parents[p] else None
  }

  /** The order lists the files found, and the first `done` of them have been expanded. */
  ghost predicate Listed(s: Found) {
    && s.done <= |s.order|
    && (forall p :: p in s.parents <==> p in s.order)
    && (forall p :: p in s.depth <==> p in s.parents)
  }

  /** Parent links are includes, and lead one step closer to a root. */
  ghost predicate LinkOk(t: Tree, roots: seq<Path>, s: Found, p: Path) {
    if Parent(s, p).None? then Root(t, roots, p) && Depth(s, p) == 0
    else Parent(s, p).value in s.parents && Includes(t, Parent(s, p).value, p) && Depth(s, p) == Depth(s, Parent(s, p).value) + 1
  }

  ghost predicate Linked(t: Tree, roots: seq<Path>, s: Found) {
    forall p :: p in s.parents ==> LinkOk(t, roots, s, p)
  }

  predicate StepDeeper(s: Found, from: Path, to: Path) {
    to in s.parents && Depth(s, to) <= Depth(s, from) + 1
  }

  /** The includes of an expanded file have been found, at most one step deeper. */
  ghost predicate Expanded(t: Tree, s: Found, from: Path) {
    forall to :: Includes(t, from, to) ==> StepDeeper(s, from, to)
  }

  ghost predicate AllExpanded(t: Tree, s: Found) {
    forall i :: 0 <= i < s.done && i < |s.order| ==> Expanded(t, s, s.order[i])
  }

  /** Depths grow along the order, and the queue spans at most two of them. */
  ghost predicate Layered(s: Found) {
    && (forall i, j :: 0 <= i <= j < |s.order| ==> Depth(s, s.order[i]) <= Depth(s, s.order[j]))
    && (forall i :: s.done < |s.order| && 0 <= i < |s.order| ==> Depth(s, s.order[i]) <= Depth(s, s.order[s.done]) + 1)
  }

  ghost predicate RootsFound(t: Tree, roots: seq<Path>, s: Found) {
    forall p :: Root(t, roots, p) ==> p in s.parents && Depth(s, p) == 0
  }

  ghost predicate Searching(t: Tree, roots: seq<Path>, s: Found) {
    Listed(s) && Linked(t, roots, s) && Layered(s) && AllExpanded(t, s) && RootsFound(t, roots, s)
  }

  lemma {:induction false} SearchParts(t: Tree, roots: seq<Path>, s: Found)
    requires Searching(t, roots, s)
    ensures Listed(s) && Layered(s) && AllExpanded(t, s) && Linked(t, roots, s)
  {
    hide Listed, Layered, AllExpanded, Linked, RootsFound;
  }

  // ---------------------------------------------------------------- what the search finds

  lemma {:induction false} DoneExpanded(t: Tree, s: Found, p: Path, to: Path)
    requires s.done <= |s.order| && AllExpanded(t, s) && p in s.order[..s.done] && Includes(t, p, to)
    ensures StepDeeper(s, p, to)
  {
    var i :| 0 <= i < s.done && s.order[..s.done][i] == p;
    assert Expanded(t, s, s.order[i]);
  }

  /** Along every walk from a root the files are found no later than the walk reaches them, up to the first one that has not
      been expanded. */
  lemma {:induction false} FoundAlong(t: Tree, roots: seq<Path>, s: Found, walk: seq<Path>, k: nat) returns (j: nat)
    requires Searching(t, roots, s) && Walk(t, roots, walk) && k < |walk|
    ensures j <= k && walk[j] in s.parents && Depth(s, walk[j]) <= j
    ensures j == k || walk[j] !in s.order[..s.done]
    decreases k
  {
    if k == 0 {
      j := 0;
    } else {
      assert s.done <= |s.order| && AllExpanded(t, s) && Includes(t, walk[k - 1], walk[k]);
      hide Searching, Walk, Includes, AllExpanded, Depth;
      j := FoundAlong(t, roots, s, walk, k - 1);
      if j == k - 1 && walk[j] in s.order[..s.done] {
        DoneExpanded(t, s, walk[j], walk[k]);
        j := k;
      }
    }
  }

  /** No walk reaches a found file in fewer steps than its depth. */
  lemma {:induction false} DepthIsShortest(t: Tree, roots: seq<Path>, s: Found, walk: seq<Path>)
    requires Searching(t, roots, s) && Walk(t, roots, walk) && walk[|walk|-1] in s.parents
    ensures Depth(s, walk[|walk|-1]) <= |walk| - 1
  {
    var last := walk[|walk|-1];
    var j := FoundAlong(t, roots, s, walk, |walk| - 1);
    assert Listed(s) && Layered(s);
    hide Searching, Walk, Depth;
    if walk[j] !in s.order[..s.done] {
      WaitingIsDeepest(s, walk[j], last);
    }
  }

  lemma {:induction false} WaitingIsDeepest(s: Found, waiting: Path, p: Path)
    requires Listed(s) && Layered(s) && waiting in s.parents && p in s.parents && waiting !in s.order[..s.done]
    ensures Depth(s, p) <= Depth(s, waiting) + 1
  {
    assert waiting in s.order && p in s.order;
    var i :| 0 <= i < |s.order| && s.order[i] == waiting;
    var m :| 0 <= m < |s.order| && s.order[m] == p;
    assert s.done <= i;
    hide Listed, Depth;
    assert Depth(s, s.order[m]) <= Depth(s, s.order[s.done]) + 1 && Depth(s, s.order[s.done]) <= Depth(s, s.order[i]);
  }

  /** Once nothing is left to expand, every file some walk reaches has been found. */
  lemma {:induction false} EverythingFound(t: Tree, roots: seq<Path>, s: Found, walk: seq<Path>)
    requires Searching(t, roots, s) && s.done == |s.order| && Walk(t, roots, walk)
    ensures walk[|walk|-1] in s.parents
  {
    hide Searching, Includes, Root, Layered, AllExpanded, Linked, Listed, Depth;
    var j := FoundAlong(t, roots, s, walk, |walk| - 1);
    SearchParts(t, roots, s);
    AllDone(s, walk[j]);
  }

  lemma {:induction false} AllDone(s: Found, p: Path)
    requires Listed(s) && s.done == |s.order| && p in s.parents
    ensures p in s.order[..s.done]
  {
    assert s.order[..s.done] == s.order;
  }

  /** Every found file is reached by a walk as long as its depth, made of its parent links. */
  lemma {:induction false} WalkTo(t: Tree, roots: seq<Path>, s: Found, p: Path) returns (walk: seq<Path>)
    requires Linked(t, roots, s) && p in s.parents
    ensures Walk(t, roots, walk) && walk[|walk|-1] == p && |walk| == Depth(s, p) + 1
    decreases Depth(s, p)
  {
    assert LinkOk(t, roots, s, p);
    if Parent(s, p).None? {
      walk := [p];
    } else {
      var from := Parent(s, p).value;
      hide Linked, Includes;
      walk := WalkTo(t, roots, s, from);
      WalkOn(t, roots, walk, p);
      walk := walk + [p];
    }
  }

  lemma {:induction false} WalkOn(t: Tree, roots: seq<Path>, walk: seq<Path>, p: Path)
    requires Walk(t, roots, walk) && Includes(t, walk[|walk|-1], p)
    ensures Walk(t, roots, walk + [p])
  {
    hide Includes, Root;
  }

  // ---------------------------------------------------------------- the search

  function Add(s: Found, p: Path, parent: Option<Path>, depth: nat): Found {
    Found(s.order + [p], s.done, s.parents[p := parent], s.depth[p := depth])
  }

  lemma {:induction false} AddLinked(t: Tree, roots: seq<Path>, s: Found, p: Path, parent: Option<Path>, depth: nat)
    requires Listed(s) && Linked(t, roots, s) && p !in s.parents
    requires if parent.None? then Root(t, roots, p) && depth == 0
             else parent.value in s.parents && Includes(t, parent.value, p) && depth == Depth(s, parent.value) + 1
    ensures Listed(Add(s, p, parent, depth)) && Linked(t, roots, Add(s, p, parent, depth))
  {
    var s' := Add(s, p, parent, depth);
    hide Includes, Root;
    forall q | q in s'.parents ensures LinkOk(t, roots, s', q) {
      assert q != p ==> LinkOk(t, roots, s, q);
    }
  }

  lemma {:induction false} AddExpanded(t: Tree, s: Found, p: Path, parent: Option<Path>, depth: nat)
    requires Listed(s) && AllExpanded(t, s) && p !in s.parents
    ensures AllExpanded(t, Add(s, p, parent, depth))
  {
    var s' := Add(s, p, parent, depth);
    forall i, to | 0 <= i < s'.done && i < |s'.order| && Includes(t, s'.order[i], to) ensures StepDeeper(s', s'.order[i], to) {
      assert s'.order[i] == s.order[i] && s.order[i] in s.order;
      assert Expanded(t, s, s.order[i]);
      hide Includes;
      assert StepDeeper(s, s.order[i], to);
    }
  }

  lemma {:induction false} AddLayered(s: Found, p: Path, parent: Option<Path>, depth: nat)
    requires Listed(s) && Layered(s) && p !in s.parents
    requires forall i :: 0 <= i < |s.order| ==> Depth(s, s.order[i]) <= depth
    requires s.done < |s.order| ==> depth <= Depth(s, s.order[s.done]) + 1
    ensures s.done < |s.order| || depth == 0 ==> Layered(Add(s, p, parent, depth))
  {
    var s' := Add(s, p, parent, depth);
    forall i | 0 <= i < |s.order| ensures Depth(s', s'.order[i]) == Depth(s, s.order[i]) {
      assert s.order[i] in s.order;
    }
    assert Depth(s', s'.order[|s.order|]) == depth;
    hide Depth, Listed;
  }

  ghost predicate AllZero(s: Found) {
    forall q :: q in s.parents ==> Depth(s, q) == 0
  }

  /** A root is found, before anything has been expanded. */
  lemma {:induction false} SeedKeeps(t: Tree, roots: seq<Path>, s: Found, p: Path)
    requires Listed(s) && Linked(t, roots, s) && Layered(s) && s.done == 0 && AllZero(s) && p !in s.parents && Root(t, roots, p)
    ensures var s' := Add(s, p, None, 0); Listed(s') && Linked(t, roots, s') && Layered(s') && AllZero(s')
  {
    AddLinked(t, roots, s, p, None, 0);
    forall i | 0 <= i < |s.order| ensures Depth(s, s.order[i]) == 0 {
      assert s.order[i] in s.order;
    }
    AddLayered(s, p, None, 0);
    hide Linked, Layered, Root;
  }

  lemma {:induction false} AtFront(s: Found)
    requires Listed(s) && Layered(s) && s.done < |s.order|
    ensures s.order[s.done] in s.parents
    ensures forall i :: 0 <= i < |s.order| ==> Depth(s, s.order[i]) <= Depth(s, s.order[s.done]) + 1
  {
    assert s.order[s.done] in s.order;
  }

  lemma {:induction false} AddRoots(t: Tree, roots: seq<Path>, s: Found, p: Path, parent: Option<Path>, depth: nat)
    requires RootsFound(t, roots, s) && p !in s.parents
    ensures RootsFound(t, roots, Add(s, p, parent, depth))
  {
    hide Root;
  }

  /** A file included by the one being expanded is found. */
  lemma {:induction false} FindKeeps(t: Tree, roots: seq<Path>, s: Found, p: Path)
    requires Searching(t, roots, s) && s.done < |s.order| && p !in s.parents && Includes(t, s.order[s.done], p)
    ensures Searching(t, roots, Add(s, p, Some(s.order[s.done]), Depth(s, s.order[s.done]) + 1))
  {
    hide Linked, Layered, AllExpanded, Listed, Root, RootsFound, Includes, Depth, Add;
    var from := s.order[s.done];
    AtFront(s);
    AddLinked(t, roots, s, p, Some(from), Depth(s, from) + 1);
    AddLayered(s, p, Some(from), Depth(s, from) + 1);
    AddExpanded(t, s, p, Some(from), Depth(s, from) + 1);
    AddRoots(t, roots, s, p, Some(from), Depth(s, from) + 1);
  }

  lemma {:induction false} NextKeeps(t: Tree, roots: seq<Path>, s: Found)
    requires Searching(t, roots, s) && s.done < |s.order| && Expanded(t, s, s.order[s.done])
    ensures Searching(t, roots, s.(done := s.done + 1))
  {
    hide Linked, Layered, AllExpanded, Root, RootsFound, Expanded, Depth;
    var s' := s.(done := s.done + 1);
    NextLinked(t, roots, s, s');
    NextLayered(s, s');
    NextExpanded(t, s, s');
    NextRoots(t, roots, s, s');
  }

  lemma {:induction false} NextRoots(t: Tree, roots: seq<Path>, s: Found, s': Found)
    requires RootsFound(t, roots, s) && s' == s.(done := s'.done)
    ensures RootsFound(t, roots, s')
  {
    hide Root;
  }

  lemma {:induction false} NextLinked(t: Tree, roots: seq<Path>, s: Found, s': Found)
    requires Linked(t, roots, s) && s' == s.(done := s'.done)
    ensures Linked(t, roots, s')
  {
    hide Includes, Root;
    forall p | p in s'.parents ensures LinkOk(t, roots, s', p) {
      assert LinkOk(t, roots, s, p);
    }
  }

  lemma {:induction false} NextLayered(s: Found, s': Found)
    requires Layered(s) && s.done < |s.order| && s' == s.(done := s.done + 1)
    ensures Layered(s')
  {
    forall p ensures Depth(s', p) == Depth(s, p) {
    }
    hide Depth;
    if s'.done < |s.order| {
      assert Depth(s, s.order[s.done]) <= Depth(s, s.order[s'.done]);
    }
  }

  lemma {:induction false} NextExpanded(t: Tree, s: Found, s': Found)
    requires AllExpanded(t, s) && s.done < |s.order| && Expanded(t, s, s.order[s.done]) && s' == s.(done := s.done + 1)
    ensures AllExpanded(t, s')
  {
    hide Includes;
    forall i, to | 0 <= i < s'.done && Includes(t, s'.order[i], to) ensures StepDeeper(s', s'.order[i], to) {
      assert Expanded(t, s, s.order[i]);
      assert StepDeeper(s, s.order[i], to);
    }
  }

  /** Some walk along includes leads from a root to the file. */
  ghost predicate Reached(t: Tree, roots: seq<Path>, p: Path) {
    exists walk :: Walk(t, roots, walk) && walk[|walk|-1] == p
  }

  /** A root has no parent; any other file found is included by its parent, which was found too. */
  ghost predicate ParentOk(t: Tree, roots: seq<Path>, parents: map<Path, Option<Path>>, p: Path) {
    p in parents ==>
      match parents[p]
      case None => Root(t, roots, p)
      case Some(q) => q in parents && Includes(t, q, p)
  }

  /** Every file found is reached from a root, through its parent links. */
  ghost predicate AllReached(t: Tree, roots: seq<Path>, parents: map<Path, Option<Path>>) {
    forall p :: p in parents ==> Reached(t, roots, p) && ParentOk(t, roots, parents, p)
  }

  /** Every file reached from a root is found. */
  ghost predicate AllFound(t: Tree, roots: seq<Path>, parents: map<Path, Option<Path>>) {
    forall p :: Reached(t, roots, p) ==> p in parents
  }

  lemma {:induction false} OneReached(t: Tree, roots: seq<Path>, s: Found, p: Path)
    requires Linked(t, roots, s) && p in s.parents
    ensures Reached(t, roots, p)
  {
    hide Linked;
    var walk := WalkTo(t, roots, s, p);
  }

  lemma {:induction false} ParentIs(t: Tree, roots: seq<Path>, s: Found, p: Path)
    requires Linked(t, roots, s) && p in s.parents
    ensures ParentOk(t, roots, s.parents, p)
  {
    hide Includes, Root;
    assert LinkOk(t, roots, s, p);
  }

  lemma {:induction false} FoundIsReached(t: Tree, roots: seq<Path>, s: Found)
    requires Searching(t, roots, s)
    ensures AllReached(t, roots, s.parents)
  {
    SearchParts(t, roots, s);
    hide Searching, Linked, Reached, ParentOk, Listed, Layered, AllExpanded, RootsFound;
    forall p | p in s.parents ensures Reached(t, roots, p) && ParentOk(t, roots, s.parents, p) {
      OneReached(t, roots, s, p);
      ParentIs(t, roots, s, p);
    }
  }

  lemma {:induction false} ReachedIsFound(t: Tree, roots: seq<Path>, s: Found)
    requires Searching(t, roots, s) && s.done == |s.order|
    ensures AllFound(t, roots, s.parents)
  {
    hide Searching, Includes, Root;
    forall p | Reached(t, roots, p) ensures p in s.parents {
      var walk :| Walk(t, roots, walk) && walk[|walk|-1] == p;
      EverythingFound(t, roots, s, walk);
    }
  }

  /** The files the compilation of the roots can read, each with the file that included it. The walk stops early once `limit`
      files have been found. */
  method Reachable(t: Tree, roots: seq<Path>, limit: nat) returns (parents: map<Path, Option<Path>>, ghost s: Found)
    ensures Searching(t, roots, s) && parents == s.parents
    ensures |parents| < limit ==> s.done == |s.order|
    ensures AllReached(t, roots, parents)
    ensures |parents| < limit ==> AllFound(t, roots, parents)
  {
    hide AllReached, AllFound;
    var queue: seq<Path>;
    parents, queue, s := Seed(t, roots);
    while queue != [] && |parents| < limit
      invariant Searching(t, roots, s) && parents == s.parents && queue == s.order[s.done..]
      decreases limit - |parents|, |queue|
    {
      hide Searching;
      parents, queue, s := Expand(t, roots, parents, queue, s);
    }
    hide Searching;
    FoundIsReached(t, roots, s);
    if s.done == |s.order| {
      ReachedIsFound(t, roots, s);
    }
  }

  lemma {:induction false} AllSeeded(t: Tree, roots: seq<Path>, s: Found)
    requires Listed(s) && Linked(t, roots, s) && Layered(s) && AllZero(s) && s.done == 0
    requires forall j :: 0 <= j < |roots| && Root(t, roots, roots[j]) ==> roots[j] in s.parents
    ensures Searching(t, roots, s)
  {
    forall p | Root(t, roots, p) ensures p in s.parents {
      var j :| 0 <= j < |roots| && roots[j] == p;
      assert Root(t, roots, roots[j]);
    }
    hide Linked, Layered, Listed, Root;
  }

  method Seed(t: Tree, roots: seq<Path>) returns (parents: map<Path, Option<Path>>, queue: seq<Path>, ghost s: Found)
    ensures Searching(t, roots, s) && parents == s.parents && s.done <= |s.order| && queue == s.order[s.done..]
  {
    parents, queue, s := map[], [], Found([], 0, map[], map[]);
    for i := 0 to |roots|
      invariant Listed(s) && Linked(t, roots, s) && Layered(s) && AllZero(s) && s.done == 0 && parents == s.parents && queue == s.order
      invariant forall j :: 0 <= j < i && Root(t, roots, roots[j]) ==> roots[j] in s.parents
    {
      var path := roots[i];
      hide Linked, Layered, Listed, AllZero;
      if path.text != "" && path !in parents && t.isFile(path) {
        SeedKeeps(t, roots, s, path);
        parents, queue, s := parents[path := None], queue + [path], Add(s, path, None, 0);
      }
    }
    hide Linked, Layered, Listed, Root;
    AllSeeded(t, roots, s);
  }

  /** What the directive reads has been found, at most one step deeper. */
  ghost predicate HitFound(t: Tree, s: Found, from: Path, d: Directive) {
    var hit := ResolvedTo(t, from, d);
    hit.Some? ==> StepDeeper(s, from, hit.value)
  }

  /** The file `current`, taken off the queue, is being expanded: its first `n` includes have been found. */
  ghost predicate Expanding(t: Tree, roots: seq<Path>, parents: map<Path, Option<Path>>, queue: seq<Path>, s: Found, current: Path, n: nat) {
    && Searching(t, roots, s) && parents == s.parents
    && s.done < |s.order| && current == s.order[s.done] && queue == s.order[s.done + 1..]
    && HitsFound(t, s, current, n)
  }

  ghost predicate HitsFound(t: Tree, s: Found, current: Path, n: nat) {
    n <= |t.directives(current)| && forall j :: 0 <= j < n ==> HitFound(t, s, current, t.directives(current)[j])
  }

  lemma {:induction false} HitsNext(t: Tree, s: Found, current: Path, n: nat)
    requires HitsFound(t, s, current, n) && n < |t.directives(current)| && HitFound(t, s, current, t.directives(current)[n])
    ensures HitsFound(t, s, current, n + 1)
  {
    hide HitFound;
  }

  lemma {:induction false} StartExpanding(t: Tree, roots: seq<Path>, parents: map<Path, Option<Path>>, queue: seq<Path>, s: Found)
    requires Searching(t, roots, s) && parents == s.parents && s.done <= |s.order| && queue == s.order[s.done..] && queue != []
    ensures Expanding(t, roots, parents, queue[1..], s, queue[0], 0)
  {
    hide Searching;
  }

  lemma {:induction false} FoundBy(t: Tree, from: Path, i: nat, to: Path)
    requires i < |t.directives(from)| && ResolvedTo(t, from, t.directives(from)[i]) == Some(to)
    ensures Includes(t, from, to)
  {
    hide ResolvedTo;
  }

  lemma {:induction false} HitNew(t: Tree, roots: seq<Path>, parents: map<Path, Option<Path>>, queue: seq<Path>, s: Found, current: Path, n: nat,
                                  hit: Path)
    requires Expanding(t, roots, parents, queue, s, current, n) && n < |t.directives(current)|
    requires ResolvedTo(t, current, t.directives(current)[n]) == Some(hit) && hit !in parents
    ensures Expanding(t, roots, parents[hit := Some(current)], queue + [hit], Add(s, hit, Some(current), Depth(s, current) + 1), current, n + 1)
  {
    hide Searching, Includes, Depth, Layered, AllExpanded, Linked, Listed, ResolvedTo, HitFound, HitsFound, Add;
    FoundBy(t, current, n, hit);
    SearchParts(t, roots, s);
    AtFront(s);
    FindKeeps(t, roots, s, hit);
    HitsStay(t, s, hit, Some(current), Depth(s, current) + 1, current, n);
    NewHitFound(t, s, current, n, hit);
    HitsNext(t, Add(s, hit, Some(current), Depth(s, current) + 1), current, n);
    AddShape(s, hit, Some(current), Depth(s, current) + 1);
    assert queue + [hit] == (s.order + [hit])[s.done + 1..];
  }

  lemma {:induction false} AddShape(s: Found, p: Path, parent: Option<Path>, depth: nat)
    ensures Add(s, p, parent, depth).order == s.order + [p] && Add(s, p, parent, depth).done == s.done
    ensures Add(s, p, parent, depth).parents == s.parents[p := parent]
  {
  }

  lemma {:induction false} HitsStay(t: Tree, s: Found, p: Path, parent: Option<Path>, depth: nat, current: Path, n: nat)
    requires p !in s.parents && p != current && HitsFound(t, s, current, n)
    ensures HitsFound(t, Add(s, p, parent, depth), current, n)
  {
    hide ResolvedTo;
    forall j | 0 <= j < n ensures HitFound(t, Add(s, p, parent, depth), current, t.directives(current)[j]) {
      assert HitFound(t, s, current, t.directives(current)[j]);
    }
  }

  lemma {:induction false} NewHitFound(t: Tree, s: Found, current: Path, n: nat, hit: Path)
    requires n < |t.directives(current)| && ResolvedTo(t, current, t.directives(current)[n]) == Some(hit) && hit != current
    ensures HitFound(t, Add(s, hit, Some(current), Depth(s, current) + 1), current, t.directives(current)[n])
  {
    hide ResolvedTo;
  }

  lemma {:induction false} HitKnown(t: Tree, roots: seq<Path>, parents: map<Path, Option<Path>>, queue: seq<Path>, s: Found, current: Path, n: nat)
    requires Expanding(t, roots, parents, queue, s, current, n) && n < |t.directives(current)|
    requires var hit := ResolvedTo(t, current, t.directives(current)[n]); hit.Some? ==> hit.value in parents
    ensures Expanding(t, roots, parents, queue, s, current, n + 1)
  {
    hide Searching, HitFound, HitsFound, ResolvedTo;
    KnownHitFound(t, roots, s, current, n);
    HitsNext(t, s, current, n);
  }

  lemma {:induction false} KnownHitFound(t: Tree, roots: seq<Path>, s: Found, current: Path, n: nat)
    requires Searching(t, roots, s) && s.done < |s.order| && current == s.order[s.done] && n < |t.directives(current)|
    requires var hit := ResolvedTo(t, current, t.directives(current)[n]); hit.Some? ==> hit.value in s.parents
    ensures HitFound(t, s, current, t.directives(current)[n])
  {
    var hit := ResolvedTo(t, current, t.directives(current)[n]);
    SearchParts(t, roots, s);
    hide ResolvedTo, Searching, Listed, Layered, Linked, AllExpanded, RootsFound;
    if hit.Some? {
      FoundIsNear(s, hit.value);
    }
  }

  lemma {:induction false} FoundIsNear(s: Found, p: Path)
    requires Listed(s) && Layered(s) && s.done < |s.order| && p in s.parents
    ensures StepDeeper(s, s.order[s.done], p)
  {
    assert p in s.order;
    var k :| 0 <= k < |s.order| && s.order[k] == p;
    assert Depth(s, s.order[k]) <= Depth(s, s.order[s.done]) + 1;
  }

  lemma {:induction false} DoneExpanding(t: Tree, roots: seq<Path>, parents: map<Path, Option<Path>>, queue: seq<Path>, s: Found, current: Path)
    requires Expanding(t, roots, parents, queue, s, current, |t.directives(current)|)
    ensures Searching(t, roots, s.(done := s.done + 1)) && parents == s.parents && s.done < |s.order| && queue == s.order[s.done + 1..]
  {
    hide Searching, StepDeeper, ResolvedTo;
    forall to | Includes(t, current, to) ensures StepDeeper(s, current, to) {
      var i :| 0 <= i < |t.directives(current)| && ResolvedTo(t, current, t.directives(current)[i]) == Some(to);
      assert HitFound(t, s, current, t.directives(current)[i]);
    }
    NextKeeps(t, roots, s);
  }

  /** Find the includes of the oldest file of the queue. */
  /** One include of the file being expanded. */
  method ExpandOne(t: Tree, roots: seq<Path>, parents: map<Path, Option<Path>>, queue: seq<Path>, ghost s: Found, current: Path, ghost i: nat,
                   d: Directive)
    returns (parents': map<Path, Option<Path>>, queue': seq<Path>, ghost s': Found)
    requires Expanding(t, roots, parents, queue, s, current, i) && i < |t.directives(current)| && d == t.directives(current)[i]
    ensures Expanding(t, roots, parents', queue', s', current, i + 1)
    ensures |parents'| > |parents| || (parents' == parents && queue' == queue)
  {
    parents', queue', s' := parents, queue, s;
    var hit := Resolve(t, current, d);
    hide Expanding, ResolvedTo, Add, Depth;
    if hit.Some? && hit.value !in parents {
      HitNew(t, roots, parents, queue, s, current, i, hit.value);
      s' := Add(s, hit.value, Some(current), Depth(s, current) + 1);
      parents', queue' := parents[hit.value := Some(current)], queue + [hit.value];
    } else {
      HitKnown(t, roots, parents, queue, s, current, i);
    }
  }

  method Expand(t: Tree, roots: seq<Path>, parents: map<Path, Option<Path>>, queue: seq<Path>, ghost s: Found)
    returns (parents': map<Path, Option<Path>>, queue': seq<Path>, ghost s': Found)
    requires Searching(t, roots, s) && parents == s.parents && s.done <= |s.order| && queue == s.order[s.done..] && queue != []
    ensures Searching(t, roots, s') && parents' == s'.parents && s'.done <= |s'.order| && queue' == s'.order[s'.done..]
    ensures |parents'| > |parents| || (parents' == parents && |queue'| < |queue|)
  {
    var current := queue[0];
    StartExpanding(t, roots, parents, queue, s);
    hide Searching, Expanding;
    parents', queue', s' := ExpandAll(t, roots, parents, queue[1..], s, current);
    DoneExpanding(t, roots, parents', queue', s', current);
    s' := s'.(done := s'.done + 1);
  }

  method ExpandAll(t: Tree, roots: seq<Path>, parents: map<Path, Option<Path>>, queue: seq<Path>, ghost s: Found, current: Path)
    returns (parents': map<Path, Option<Path>>, queue': seq<Path>, ghost s': Found)
    requires Expanding(t, roots, parents, queue, s, current, 0)
    ensures Expanding(t, roots, parents', queue', s', current, |t.directives(current)|)
    ensures |parents'| > |parents| || (parents' == parents && queue' == queue)
  {
    parents', queue', s' := parents, queue, s;
    var directives := t.directives(current);
    hide Expanding;
    for i := 0 to |directives|
      invariant Expanding(t, roots, parents', queue', s', current, i)
      invariant |parents'| > |parents| || (parents' == parents && queue' == queue)
    {
      parents', queue', s' := ExpandOne(t, roots, parents', queue', s', current, i, directives[i]);
    }
  }

  // ---------------------------------------------------------------- include chains

  /** The chain shown for a file: real includes, no file twice, ending at the file; it starts at a root unless it was cut. */
  ghost predicate Explains(t: Tree, roots: seq<Path>, s: Found, path: Path, chain: seq<Path>) {
    if path !in s.parents then chain == []
    else
      && chain != [] && chain[|chain|-1] == path
      && (forall i :: 0 <= i < |chain| - 1 ==> Includes(t, chain[i], chain[i + 1]))
      && (forall i, j :: 0 <= i < j < |chain| ==> chain[i] != chain[j])
      && |chain| == (if Depth(s, path) < 64 then Depth(s, path) + 1 else 64)
      && (Depth(s, path) < 64 ==> Walk(t, roots, chain))
  }

  function Reversed(q: seq<Path>): (r: seq<Path>)
    ensures |r| == |q| && forall i :: 0 <= i < |q| ==> r[i] == q[|q| - 1 - i]
  {
    seq(|q|, i requires 0 <= i < |q| => q[|q| - 1 - i])
  }

  ghost predicate Upwards(t: Tree, s: Found, path: Path, chain: seq<Path>) {
    && chain != [] && chain[0] == path
    && (forall i :: 0 <= i < |chain| ==> chain[i] in s.parents && Depth(s, chain[i]) + i == Depth(s, path))
    && forall i :: 0 <= i < |chain| - 1 ==> Includes(t, chain[i + 1], chain[i])
  }

  /** The files from a root down to `path`. */
  method IncludeChain(t: Tree, roots: seq<Path>, parents: map<Path, Option<Path>>, path: Path, ghost s: Found) returns (chain: seq<Path>)
    requires Linked(t, roots, s) && parents == s.parents
    ensures Explains(t, roots, s, path, chain)
  {
    if path !in parents {
      return [];
    }
    chain := [path];
    while chain[|chain|-1] in parents && parents[chain[|chain|-1]].Some? && |chain| < MAX_CHAIN
      invariant Upwards(t, s, path, chain) && |chain| <= MAX_CHAIN
      decreases MAX_CHAIN - |chain|
    {
      var last := chain[|chain|-1];
      assert LinkOk(t, roots, s, last);
      OneUp(t, roots, s, path, chain);
      hide Upwards;
      chain := chain + [parents[last].value];
    }
    assert LinkOk(t, roots, s, chain[|chain|-1]);
    TopReached(t, roots, s, path, chain);
    chain := Reversed(chain);
  }

  lemma {:induction false} OneUp(t: Tree, roots: seq<Path>, s: Found, path: Path, chain: seq<Path>)
    requires Upwards(t, s, path, chain) && Parent(s, chain[|chain|-1]).Some? && LinkOk(t, roots, s, chain[|chain|-1])
    ensures Upwards(t, s, path, chain + [Parent(s, chain[|chain|-1]).value])
  {
    var up := Parent(s, chain[|chain|-1]).value;
    assert Includes(t, up, chain[|chain|-1]) && up in s.parents && Depth(s, up) + |chain| == Depth(s, path);
    hide Includes, Root, LinkOk, Depth, Parent;
    assert forall i :: 0 <= i < |chain| ==> (chain + [up])[i] == chain[i];
  }

  lemma {:induction false} TopReached(t: Tree, roots: seq<Path>, s: Found, path: Path, chain: seq<Path>)
    requires Upwards(t, s, path, chain) && |chain| <= MAX_CHAIN && LinkOk(t, roots, s, chain[|chain|-1])
    requires Parent(s, chain[|chain|-1]).None? || |chain| == MAX_CHAIN
    ensures Explains(t, roots, s, path, Reversed(chain))
  {
    var n := |chain| - 1;
    var top := chain[n];
    assert top in s.parents && Depth(s, top) + n == Depth(s, path) && path in s.parents;
    assert Parent(s, top).None? ==> Root(t, roots, top) && Depth(s, top) == 0;
    assert Parent(s, top).Some? ==> Depth(s, top) > 0;
    hide Includes, Root, Depth, Parent, LinkOk, Upwards;
    UpDown(t, s, path, chain);
  }

  lemma {:induction false} UpDown(t: Tree, s: Found, path: Path, chain: seq<Path>)
    requires Upwards(t, s, path, chain)
    ensures var down := Reversed(chain);
            && (forall i :: 0 <= i < |down| - 1 ==> Includes(t, down[i], down[i + 1]))
            && (forall i, j :: 0 <= i < j < |down| ==> down[i] != down[j])
  {
    hide Includes, Depth;
    var down, n := Reversed(chain), |chain| - 1;
    forall i | 0 <= i < n ensures Includes(t, down[i], down[i + 1]) {
      assert down[i] == chain[n - i - 1 + 1] && down[i + 1] == chain[n - i - 1];
    }
    forall i, j | 0 <= i < j < |down| ensures down[i] != down[j] {
      assert Depth(s, chain[n - i]) + (n - i) == Depth(s, path) && Depth(s, chain[n - j]) + (n - j) == Depth(s, path);
    }
  }
}
