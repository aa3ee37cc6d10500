/** Build conditions of Kbuild files (parser/kbuild_conditions.py): folding constructors, the four-valued evaluator, and the
    stack of conditional frames, compared with the conditional machine of GNU make (section 7.2 of the GNU make manual). */
module KbuildConditions {
  import opened Basics

  /** Not built, unknown, module, built in: "and" is the minimum and "or" the maximum in this order. */
  datatype Tri = N | U | M | Y

  function Rank(t: Tri): nat {
    match t case N => 0 case U => 1 case M => 2 case Y => 3
  }

  function Min(a: Tri, b: Tri): Tri {
    if Rank(a) <= Rank(b) then a else b
  }

  function Max(a: Tri, b: Tri): Tri {
    if Rank(a) <= Rank(b) then b else a
  }

  function Negated(t: Tri): Tri {
    match t case N => Y case U => U case _ => N
  }

  /** A side of a comparison: literal text, or a symbol's value. */
  datatype Part = Text(text: string) | Val(sym: string)

  datatype Expr =
    | Const(value: Tri)
    | Sym(sym: string)
    | Def(sym: string)
    | Eq(left: seq<Part>, right: seq<Part>)
    | Not(e: Expr)
    | And(terms: seq<Expr>)
    | Or(terms: seq<Expr>)

  /** A configuration: a symbol's raw value, or nothing when it is not known. */
  type Config = string -> Option<string>

  // ---------------------------------------------------------------- evaluation

  function Raw(value: Option<string>): Option<string> {
    if value.Some? && value.value == "n" then Some("") else value
  }

  function Joined(parts: seq<Part>, config: Config): Option<string> {
    if parts == [] then Some("")
    else
      var first := if parts[0].Text? then Some(parts[0].text) else Raw(config(parts[0].sym));
      var rest := Joined(parts[1..], config);
      if first.None? || rest.None? then None else Some(first.value + rest.value)
  }

  /** The text make compares: every symbol replaced by its value. */
  function Expansion(parts: seq<Part>, value: string -> string): string {
    if parts == [] then ""
    else (if parts[0].Text? then parts[0].text else value(parts[0].sym)) + Expansion(parts[1..], value)
  }

  /** The parts' symbols whose value is known expand to it; one set to "n" is not set at all. */
  ghost predicate Expands(parts: seq<Part>, config: Config, value: string -> string) {
    forall i :: 0 <= i < |parts| && parts[i].Val? && config(parts[i].sym).Some? ==>
      value(parts[i].sym) == if config(parts[i].sym).value == "n" then "" else config(parts[i].sym).value
  }

  predicate UnknownIn(parts: seq<Part>, config: Config) {
    exists i :: 0 <= i < |parts| && parts[i].Val? && config(parts[i].sym).None?
  }

  lemma {:induction false} JoinedIsExpansion(parts: seq<Part>, config: Config, value: string -> string)
    requires Expands(parts, config, value)
    ensures Joined(parts, config).None? <==> UnknownIn(parts, config)
    ensures !UnknownIn(parts, config) ==> Joined(parts, config) == Some(Expansion(parts, value))
    decreases |parts|
  {
    if parts != [] {
      var rest := parts[1..];
      assert forall i :: 0 <= i < |rest| ==> rest[i] == parts[i + 1];
      JoinedIsExpansion(rest, config, value);
      if UnknownIn(rest, config) {
        var i :| 0 <= i < |rest| && rest[i].Val? && config(rest[i].sym).None?;
        assert parts[i + 1].Val?;
      }
      if UnknownIn(parts, config) && !(parts[0].Val? && config(parts[0].sym).None?) {
        var i :| 0 <= i < |parts| && parts[i].Val? && config(parts[i].sym).None?;
        assert rest[i - 1].Val?;
      }
    }
  }

  /** A comparison is decided as make decides it, on the expanded texts without the blanks around them, unless a symbol in it
      is unknown. */
  lemma {:induction false} ComparisonIsMakes(left: seq<Part>, right: seq<Part>, config: Config, value: string -> string)
    requires Expands(left, config, value) && Expands(right, config, value)
    ensures var verdict, unknown := Evaluate(Eq(left, right), config), UnknownIn(left, config) || UnknownIn(right, config);
            && (verdict == U <==> unknown)
            && (!unknown ==> (verdict == Y <==> Strip(Expansion(left, value)) == Strip(Expansion(right, value))))
            && (verdict == N || verdict == Y || verdict == U)
  {
    JoinedIsExpansion(left, config, value);
    JoinedIsExpansion(right, config, value);
    hide Joined, Expansion, UnknownIn, Strip;
  }

  /** A symbol is built in, a module, or not built by its value; it is defined if it has a value other than "n". */
  lemma {:induction false} SymbolIsItsValue(sym: string, config: Config)
    ensures Evaluate(Sym(sym), config) == Y <==> config(sym) == Some("y")
    ensures Evaluate(Sym(sym), config) == M <==> config(sym) == Some("m")
    ensures Evaluate(Sym(sym), config) == U <==> config(sym) == None
    ensures Evaluate(Def(sym), config) == U <==> config(sym) == None
    ensures Evaluate(Def(sym), config) == N <==> config(sym) == Some("") || config(sym) == Some("n")
    ensures Evaluate(Def(sym), config) != M
  {
  }

  function Evaluate(e: Expr, config: Config): Tri {
    match e
    case Const(value) => value
    case Sym(sym) =>
      var v := config(sym);
      if v.None? then U else if v.value == "y" then Y else if v.value == "m" then M else N
    case Def(sym) =>
      var v := Raw(config(sym));
      if v.None? then U else if v.value != "" then Y else N
    case Eq(left, right) =>
      var a, b := Joined(left, config), Joined(right, config);
      if a.None? || b.None? then U else if Strip(a.value) == Strip(b.value) then Y else N
    case Not(e1) => Negated(Evaluate(e1, config))
    case And(terms) => Lowest(terms, config)
    case Or(terms) => Highest(terms, config)
  }

  /** "n" beats "?", which beats "m". */
  function Lowest(terms: seq<Expr>, config: Config): Tri {
    if terms == [] then Y else Min(Evaluate(terms[0], config), Lowest(terms[1..], config))
  }

  /** "y" beats "m", which beats "?". */
  function Highest(terms: seq<Expr>, config: Config): Tri {
    if terms == [] then N else Max(Evaluate(terms[0], config), Highest(terms[1..], config))
  }

  lemma {:induction false} LowestOf(terms: seq<Expr>, config: Config)
    ensures forall i :: 0 <= i < |terms| ==> Rank(Lowest(terms, config)) <= Rank(Evaluate(terms[i], config))
    ensures terms != [] ==> exists i :: 0 <= i < |terms| && Evaluate(terms[i], config) == Lowest(terms, config)
    decreases |terms|
  {
    if terms != [] {
      var e, rest := terms[0], terms[1..];
      LowestOf(rest, config);
      assert Lowest(terms, config) == Min(Evaluate(e, config), Lowest(rest, config));
      hide Evaluate, Lowest;
      assert forall i :: 1 <= i < |terms| ==> rest[i - 1] == terms[i];
      if rest != [] {
        var i :| 0 <= i < |rest| && Evaluate(rest[i], config) == Lowest(rest, config);
        assert Evaluate(terms[i + 1], config) == Lowest(rest, config);
      }
      assert Evaluate(terms[0], config) == Evaluate(e, config);
    }
  }

  lemma {:induction false} HighestOf(terms: seq<Expr>, config: Config)
    ensures forall i :: 0 <= i < |terms| ==> Rank(Evaluate(terms[i], config)) <= Rank(Highest(terms, config))
    ensures terms != [] ==> exists i :: 0 <= i < |terms| && Evaluate(terms[i], config) == Highest(terms, config)
    decreases |terms|
  {
    if terms != [] {
      var e, rest := terms[0], terms[1..];
      HighestOf(rest, config);
      assert Highest(terms, config) == Max(Evaluate(e, config), Highest(rest, config));
      hide Evaluate, Highest;
      assert forall i :: 1 <= i < |terms| ==> rest[i - 1] == terms[i];
      if rest != [] {
        var i :| 0 <= i < |rest| && Evaluate(rest[i], config) == Highest(rest, config);
        assert Evaluate(terms[i + 1], config) == Highest(rest, config);
      }
      assert Evaluate(terms[0], config) == Evaluate(e, config);
    }
  }

  // ---------------------------------------------------------------- folding constructors

  /** Add the terms that are not there yet. */
  function AddNew(terms: seq<Expr>, more: seq<Expr>): seq<Expr>
    decreases |more|
  {
    if more == [] then terms
    else AddNew(if more[0] in terms then terms else terms + [more[0]], more[1..])
  }

  /** The terms of one operand: nested operands of the same kind are flattened. */
  function AndParts(e: Expr): seq<Expr> {
    if e.And? then e.terms else [e]
  }

  function OrParts(e: Expr): seq<Expr> {
    if e.Or? then e.terms else [e]
  }

  /** Conjunction with constant folding. */
  function AndFold(exprs: seq<Expr>, terms: seq<Expr>): Expr {
    if exprs == [] then
      if terms == [] then Const(Y) else if |terms| == 1 then terms[0] else And(terms)
    else if exprs[0] == Const(N) then Const(N)
    else if exprs[0] == Const(Y) then AndFold(exprs[1..], terms)
    else AndFold(exprs[1..], AddNew(terms, AndParts(exprs[0])))
  }

  function AndOf(exprs: seq<Expr>): Expr {
    AndFold(exprs, [])
  }

  /** Disjunction with constant folding. */
  function OrFold(exprs: seq<Expr>, terms: seq<Expr>): Expr {
    if exprs == [] then
      if terms == [] then Const(N) else if |terms| == 1 then terms[0] else Or(terms)
    else if exprs[0] == Const(Y) then Const(Y)
    else if exprs[0] == Const(N) then OrFold(exprs[1..], terms)
    else OrFold(exprs[1..], AddNew(terms, OrParts(exprs[0])))
  }

  function OrOf(exprs: seq<Expr>): Expr {
    OrFold(exprs, [])
  }

  function NotOf(e: Expr): Expr {
    match e
    case Const(value) => Const(Negated(value))
    case _ => Not(e)
  }

  lemma {:induction false} AppendTerm(terms: seq<Expr>, e: Expr, config: Config)
    ensures Lowest(terms + [e], config) == Min(Lowest(terms, config), Evaluate(e, config))
    ensures Highest(terms + [e], config) == Max(Highest(terms, config), Evaluate(e, config))
    decreases |terms|
  {
    if terms == [] {
      assert [] + [e] == [e];
    } else {
      AppendTerm(terms[1..], e, config);
      assert (terms + [e])[1..] == terms[1..] + [e];
    }
  }

  lemma {:induction false} AddNewValue(terms: seq<Expr>, more: seq<Expr>, config: Config)
    ensures Lowest(AddNew(terms, more), config) == Min(Lowest(terms, config), Lowest(more, config))
    ensures Highest(AddNew(terms, more), config) == Max(Highest(terms, config), Highest(more, config))
    decreases |more|
  {
    if more != [] {
      var e := more[0];
      if e in terms {
        LowestOf(terms, config);
        HighestOf(terms, config);
        AddNewValue(terms, more[1..], config);
      } else {
        AppendTerm(terms, e, config);
        AddNewValue(terms + [e], more[1..], config);
      }
    }
  }

  lemma {:induction false} AndFoldValue(exprs: seq<Expr>, terms: seq<Expr>, config: Config)
    ensures Evaluate(AndFold(exprs, terms), config) == Min(Lowest(terms, config), Lowest(exprs, config))
    decreases |exprs|
  {
    if exprs == [] {
      if |terms| == 1 {
        assert terms[1..] == [];
      }
    } else if exprs[0] == Const(N) || exprs[0] == Const(Y) {
      AndFoldValue(exprs[1..], terms, config);
    } else {
      var parts := AndParts(exprs[0]);
      PartsValue(exprs[0], config);
      AddNewValue(terms, parts, config);
      AndFoldValue(exprs[1..], AddNew(terms, parts), config);
    }
  }

  lemma {:induction false} PartsValue(e: Expr, config: Config)
    ensures Lowest(AndParts(e), config) == Evaluate(e, config) && Highest(OrParts(e), config) == Evaluate(e, config)
  {
    assert [e][1..] == [];
  }

  lemma {:induction false} OrFoldValue(exprs: seq<Expr>, terms: seq<Expr>, config: Config)
    ensures Evaluate(OrFold(exprs, terms), config) == Max(Highest(terms, config), Highest(exprs, config))
    decreases |exprs|
  {
    if exprs == [] {
      if |terms| == 1 {
        assert terms[1..] == [];
      }
    } else if exprs[0] == Const(N) || exprs[0] == Const(Y) {
      OrFoldValue(exprs[1..], terms, config);
    } else {
      var parts := OrParts(exprs[0]);
      PartsValue(exprs[0], config);
      AddNewValue(terms, parts, config);
      OrFoldValue(exprs[1..], AddNew(terms, parts), config);
    }
  }

  /** Folding keeps the value: the minimum, the maximum and the negation of the operands, in every configuration. */
  lemma {:induction false} FoldingKeepsValue(exprs: seq<Expr>, e: Expr, config: Config)
    ensures Evaluate(AndOf(exprs), config) == Lowest(exprs, config)
    ensures Evaluate(OrOf(exprs), config) == Highest(exprs, config)
    ensures Evaluate(NotOf(e), config) == match Evaluate(e, config) case N => Y case U => U case M => N case Y => N
  {
    AndFoldValue(exprs, [], config);
    OrFoldValue(exprs, [], config);
  }

  /** The loop of `and_`. */
  method FoldAnd(exprs: seq<Expr>) returns (r: Expr)
    ensures r == AndOf(exprs)
  {
    var terms: seq<Expr> := [];
    for i := 0 to |exprs|
      invariant AndFold(exprs[i..], terms) == AndOf(exprs)
    {
      var e := exprs[i];
      assert exprs[i..][1..] == exprs[i + 1..];
      if e == Const(N) {
        return Const(N);
      }
      if e != Const(Y) {
        terms := AppendNew(terms, AndParts(e));
      }
    }
    return if terms == [] then Const(Y) else if |terms| == 1 then terms[0] else And(terms);
  }

  /** The loop of `or_`. */
  method FoldOr(exprs: seq<Expr>) returns (r: Expr)
    ensures r == OrOf(exprs)
  {
    var terms: seq<Expr> := [];
    for i := 0 to |exprs|
      invariant OrFold(exprs[i..], terms) == OrOf(exprs)
    {
      var e := exprs[i];
      assert exprs[i..][1..] == exprs[i + 1..];
      if e == Const(Y) {
        return Const(Y);
      }
      if e != Const(N) {
        terms := AppendNew(terms, OrParts(e));
      }
    }
    return if terms == [] then Const(N) else if |terms| == 1 then terms[0] else Or(terms);
  }

  method AppendNew(terms: seq<Expr>, more: seq<Expr>) returns (r: seq<Expr>)
    ensures r == AddNew(terms, more)
  {
    r := terms;
    for i := 0 to |more|
      invariant AddNew(r, more[i..]) == AddNew(terms, more)
    {
      assert more[i..][1..] == more[i + 1..];
      if more[i] !in r {
        r := r + [more[i]];
      }
    }
  }

  // ---------------------------------------------------------------- more knowledge

  predicate KnowsMore(config: Config, config': Config, sym: string) {
    config(sym).Some? ==> config'(sym) == config(sym)
  }

  /** Unknown parts of the expression are resolved to anything. */
  predicate Resolves(e: Expr, e': Expr)
    decreases e
  {
    match e
    case Const(value) => value == U || e' == e
    case Not(e1) => e'.Not? && Resolves(e1, e'.e)
    case And(terms) => e'.And? && |e'.terms| == |terms| && forall i :: 0 <= i < |terms| ==> Resolves(terms[i], e'.terms[i])
    case Or(terms) => e'.Or? && |e'.terms| == |terms| && forall i :: 0 <= i < |terms| ==> Resolves(terms[i], e'.terms[i])
    case _ => e' == e
  }

  /** A verdict that more knowledge may not overturn: not built stays not built, built in stays built in, built stays built. */
  predicate Settles(t: Tri, t': Tri) {
    match t
    case N => t' == N
    case Y => t' == Y
    case M => t' == M || t' == Y
    case U => true
  }

  lemma {:induction false} JoinedStable(parts: seq<Part>, config: Config, config': Config)
    requires forall sym :: KnowsMore(config, config', sym)
    ensures Joined(parts, config).Some? ==> Joined(parts, config') == Joined(parts, config)
    decreases |parts|
  {
    if parts != [] {
      JoinedStable(parts[1..], config, config');
      if parts[0].Val? {
        assert KnowsMore(config, config', parts[0].sym);
      }
    }
  }

  /** A definite verdict is stable when unknown symbols become known and unknown conditions are resolved. */
  lemma {:induction false} VerdictsAreStable(e: Expr, e': Expr, config: Config, config': Config)
    requires (forall sym :: KnowsMore(config, config', sym)) && Resolves(e, e')
    ensures Settles(Evaluate(e, config), Evaluate(e', config'))
    decreases e
  {
    match e
    case Const(_) =>
    case Sym(sym) => assert KnowsMore(config, config', sym);
    case Def(sym) => assert KnowsMore(config, config', sym);
    case Eq(left, right) =>
      JoinedStable(left, config, config');
      JoinedStable(right, config, config');
    case Not(e1) => VerdictsAreStable(e1, e'.e, config, config');
    case And(terms) =>
      forall i | 0 <= i < |terms| ensures Settles(Evaluate(terms[i], config), Evaluate(e'.terms[i], config')) {
        VerdictsAreStable(terms[i], e'.terms[i], config, config');
      }
      SettlesAll(terms, e'.terms, config, config');
    case Or(terms) =>
      forall i | 0 <= i < |terms| ensures Settles(Evaluate(terms[i], config), Evaluate(e'.terms[i], config')) {
        VerdictsAreStable(terms[i], e'.terms[i], config, config');
      }
      SettlesAll(terms, e'.terms, config, config');
  }

  lemma {:induction false} SettlesAll(terms: seq<Expr>, terms': seq<Expr>, config: Config, config': Config)
    requires |terms| == |terms'|
    requires forall i :: 0 <= i < |terms| ==> Settles(Evaluate(terms[i], config), Evaluate(terms'[i], config'))
    ensures Settles(Lowest(terms, config), Lowest(terms', config')) && Settles(Highest(terms, config), Highest(terms', config'))
    decreases |terms|
  {
    if terms != [] {
      SettlesAll(terms[1..], terms'[1..], config, config');
    }
  }

  // ---------------------------------------------------------------- unknown parts

  predicate HasUnknown(e: Expr)
    decreases e
  {
    match e
    case Const(value) => value == U
    case Not(e1) => HasUnknown(e1)
    case And(terms) => exists i :: 0 <= i < |terms| && HasUnknown(terms[i])
    case Or(terms) => exists i :: 0 <= i < |terms| && HasUnknown(terms[i])
    case _ => false
  }

  lemma {:induction false} KnownJoined(parts: seq<Part>, config: Config)
    requires forall sym :: config(sym).Some?
    ensures Joined(parts, config).Some?
    decreases |parts|
  {
    if parts != [] {
      KnownJoined(parts[1..], config);
    }
  }

  /** Without unknown parts, a complete configuration gives a definite verdict. */
  lemma {:induction false} KnownIsDefinite(e: Expr, config: Config)
    requires (forall sym :: config(sym).Some?) && !HasUnknown(e)
    ensures Evaluate(e, config) != U
    decreases e
  {
    match e
    case Eq(left, right) =>
      KnownJoined(left, config);
      KnownJoined(right, config);
    case Not(e1) => KnownIsDefinite(e1, config);
    case And(terms) =>
      forall i | 0 <= i < |terms| ensures Evaluate(terms[i], config) != U {
        KnownIsDefinite(terms[i], config);
      }
      LowestOf(terms, config);
    case Or(terms) =>
      forall i | 0 <= i < |terms| ensures Evaluate(terms[i], config) != U {
        KnownIsDefinite(terms[i], config);
      }
      HighestOf(terms, config);
    case _ =>
  }

  // ---------------------------------------------------------------- conditional frames

  /** A logical line of a makefile; `cond` is what the parser makes of a directive's arguments. */
  datatype Line = If(cond: Expr) | ElseIf(cond: Expr) | Else | Endif | Text

  /** The branch conditions each open frame has seen so far. */
  function StackStep(frames: seq<seq<Expr>>, line: Line): seq<seq<Expr>> {
    var n := |frames| - 1;
    match line
    case If(cond) => frames + [[cond]]
    case ElseIf(cond) => if frames == [] then frames else frames[n := frames[n] + [cond]]
    case Else => if frames == [] then frames else frames[n := frames[n] + [Const(Y)]]
    case Endif => if frames == [] then frames else frames[..n]
    case Text => frames
  }

  function StackAfter(lines: seq<Line>, n: nat): seq<seq<Expr>>
    requires n <= |lines|
  {
    if n == 0 then [] else StackStep(StackAfter(lines, n - 1), lines[n - 1])
  }

  function Negations(branches: seq<Expr>): (r: seq<Expr>)
    ensures |r| == |branches| && forall i :: 0 <= i < |r| ==> r[i] == NotOf(branches[i])
  {
    seq(|branches|, i requires 0 <= i < |branches| => NotOf(branches[i]))
  }

  /** No earlier branch applies, and the last one does. */
  function FrameCond(branches: seq<Expr>): Expr
    requires branches != []
  {
    AndOf(Negations(branches[..|branches|-1]) + [branches[|branches|-1]])
  }

  predicate AnyUnknown(branches: seq<Expr>) {
    exists i :: 0 <= i < |branches| && HasUnknown(branches[i])
  }

  predicate NonEmpty(frames: seq<seq<Expr>>) {
    forall f :: 0 <= f < |frames| ==> frames[f] != []
  }

  /** The conditions of the frames that apply: a transparent stack skips frames it cannot evaluate. */
  function FrameConds(frames: seq<seq<Expr>>, transparent: bool): seq<Expr>
    requires NonEmpty(frames)
  {
    if frames == [] then []
    else
      var n := |frames| - 1;
      var before := FrameConds(frames[..n], transparent);
      if transparent && AnyUnknown(frames[n]) then before else before + [FrameCond(frames[n])]
  }

  /** The condition of a line. */
  function Current(frames: seq<seq<Expr>>, transparent: bool): Expr
    requires NonEmpty(frames)
  {
    AndOf(FrameConds(frames, transparent))
  }

  class CondStack {
    var frames: seq<seq<Expr>>
    const transparent: bool

    ghost predicate Valid()
      reads this
    {
      NonEmpty(frames)
    }

    constructor (transparent: bool)
      ensures Valid() && frames == [] && this.transparent == transparent
    {
      frames, this.transparent := [], transparent;
    }

    method Push(cond: Expr)
      requires Valid()
      modifies this
      ensures Valid() && frames == StackStep(old(frames), If(cond))
    {
      frames := frames + [[cond]];
    }

    method OrElse(cond: Expr)
      requires Valid()
      modifies this
      ensures Valid() && frames == StackStep(old(frames), ElseIf(cond))
    {
      if frames != [] {
        frames := frames[|frames| - 1 := frames[|frames| - 1] + [cond]];
      }
    }

    method Pop()
      requires Valid()
      modifies this
      ensures Valid() && frames == StackStep(old(frames), Endif)
    {
      if frames != [] {
        frames := frames[..|frames| - 1];
      }
    }

    method CurrentCond() returns (r: Expr)
      requires Valid()
      ensures r == Current(frames, transparent)
    {
      var terms: seq<Expr> := [];
      for f := 0 to |frames|
        invariant terms == FrameConds(frames[..f], transparent)
      {
        assert frames[..f + 1][..f] == frames[..f];
        var branches := frames[f];
        if !(transparent && AnyUnknown(branches)) {
          var last := |branches| - 1;
          var term := FoldAnd(Negations(branches[..last]) + [branches[last]]);
          terms := terms + [term];
        }
      }
      assert frames[..|frames|] == frames;
      r := FoldAnd(terms);
    }
  }

  lemma {:induction false} StackNonEmpty(lines: seq<Line>, n: nat)
    requires n <= |lines|
    ensures NonEmpty(StackAfter(lines, n))
    decreases n
  {
    if n > 0 {
      StackNonEmpty(lines, n - 1);
    }
  }

  /** The condition of every plain line. */
  method ParseGates(lines: seq<Line>, transparent: bool) returns (gates: seq<(nat, Expr)>)
    ensures forall g :: g in gates ==> g.0 < |lines| && lines[g.0].Text? && NonEmpty(StackAfter(lines, g.0))
                                       && g.1 == Current(StackAfter(lines, g.0), transparent)
    ensures forall n :: 0 <= n < |lines| && lines[n].Text? ==> exists g :: g in gates && g.0 == n
  {
    gates := [];
    var conds := new CondStack(transparent);
    for n := 0 to |lines|
      invariant conds.Valid() && conds.frames == StackAfter(lines, n) && fresh(conds) && conds.transparent == transparent
      invariant Gated(lines, transparent, gates, n)
    {
      hide Gated, Current;
      GatedNext(lines, transparent, gates, n);
      match lines[n]
      case If(cond) => conds.Push(cond);
      case ElseIf(cond) => conds.OrElse(cond);
      case Else => conds.OrElse(Const(Y));
      case Endif => conds.Pop();
      case Text =>
        var gate := conds.CurrentCond();
        gates := gates + [(n, gate)];
    }
  }

  /** The plain lines among the first `n` have their conditions, and no others. */
  ghost predicate Gated(lines: seq<Line>, transparent: bool, gates: seq<(nat, Expr)>, n: nat)
    requires n <= |lines|
  {
    && (forall g :: g in gates ==> g.0 < n && lines[g.0].Text? && NonEmpty(StackAfter(lines, g.0))
                                   && g.1 == Current(StackAfter(lines, g.0), transparent))
    && forall m :: 0 <= m < n && lines[m].Text? ==> exists g :: g in gates && g.0 == m
  }

  lemma {:induction false} GatedNext(lines: seq<Line>, transparent: bool, gates: seq<(nat, Expr)>, n: nat)
    requires n < |lines| && Gated(lines, transparent, gates, n) && NonEmpty(StackAfter(lines, n))
    ensures !lines[n].Text? ==> Gated(lines, transparent, gates, n + 1)
    ensures lines[n].Text? ==> Gated(lines, transparent, gates + [(n, Current(StackAfter(lines, n), transparent))], n + 1)
  {
    hide StackAfter, Current;
    var g := (n, Current(StackAfter(lines, n), transparent));
    forall m | 0 <= m < n + 1 && lines[m].Text? ensures exists h :: h in gates + [g] && h.0 == m {
      if m < n {
        var h :| h in gates && h.0 == m;
        assert h in gates + [g];
      } else {
        assert g in gates + [g];
      }
    }
  }

  // ---------------------------------------------------------------- make

  /** GNU make reads a line when every open conditional is in a branch that applies: the first one whose condition holds. */
  datatype MakeFrame = MakeFrame(taken: bool, active: bool)

  function MakeStep(frames: seq<MakeFrame>, line: Line, truth: bool): seq<MakeFrame> {
    var n := |frames| - 1;
    match line
    case If(_) => frames + [MakeFrame(truth, truth)]
    case ElseIf(_) => if frames == [] then frames else frames[n := MakeFrame(frames[n].taken || truth, !frames[n].taken && truth)]
    case Else => if frames == [] then frames else frames[n := MakeFrame(true, !frames[n].taken)]
    case Endif => if frames == [] then frames else frames[..n]
    case Text => frames
  }

  function MakeAfter(lines: seq<Line>, truths: seq<bool>, n: nat): seq<MakeFrame>
    requires n <= |lines| == |truths|
  {
    if n == 0 then [] else MakeStep(MakeAfter(lines, truths, n - 1), lines[n - 1], truths[n - 1])
  }

  predicate MakeReads(frames: seq<MakeFrame>) {
    forall f :: 0 <= f < |frames| ==> frames[f].active
  }

  /** What make finds agrees with the condition's value; an unknown condition may turn out either way. */
  predicate Faithful(cond: Expr, truth: bool, config: Config) {
    match Evaluate(cond, config) case N => !truth case U => true case _ => truth
  }

  predicate Truthful(lines: seq<Line>, truths: seq<bool>, config: Config) {
    |truths| == |lines| && forall n :: 0 <= n < |lines| && (lines[n].If? || lines[n].ElseIf?) ==> Faithful(lines[n].cond, truths[n], config)
  }

  /** A frame's branches, with the truth of each, and make's frame for it. */
  ghost predicate FrameOk(branches: seq<Expr>, found: seq<bool>, frame: MakeFrame, config: Config) {
    && |found| == |branches| && branches != []
    && (forall i :: 0 <= i < |branches| ==> Faithful(branches[i], found[i], config))
    && (frame.taken <==> exists i :: 0 <= i < |found| && found[i])
    && (frame.active <==> found[|found|-1] && forall i :: 0 <= i < |found| - 1 ==> !found[i])
  }

  ghost predicate FrameTracks(branches: seq<Expr>, frame: MakeFrame, config: Config) {
    exists found :: FrameOk(branches, found, frame, config)
  }

  lemma {:induction false} NextBranch(branches: seq<Expr>, frame: MakeFrame, config: Config, cond: Expr, truth: bool)
    requires FrameTracks(branches, frame, config) && Faithful(cond, truth, config)
    ensures FrameTracks(branches + [cond], MakeFrame(frame.taken || truth, !frame.taken && truth), config)
  {
    var found :| FrameOk(branches, found, frame, config);
    var found', frame' := found + [truth], MakeFrame(frame.taken || truth, !frame.taken && truth);
    if frame.taken {
      var i :| 0 <= i < |found| && found[i];
      assert found'[i];
    }
    if truth {
      assert found'[|found|];
    }
    assert FrameOk(branches + [cond], found', frame', config);
  }

  lemma {:induction false} FirstBranch(cond: Expr, truth: bool, config: Config)
    requires Faithful(cond, truth, config)
    ensures FrameTracks([cond], MakeFrame(truth, truth), config)
  {
    assert [truth][0] == truth;
    assert FrameOk([cond], [truth], MakeFrame(truth, truth), config);
  }

  ghost predicate Tracks(s: seq<seq<Expr>>, m: seq<MakeFrame>, config: Config) {
    |s| == |m| && forall f :: 0 <= f < |s| ==> FrameTracks(s[f], m[f], config)
  }

  lemma {:induction false} LastReplaced(s: seq<seq<Expr>>, m: seq<MakeFrame>, config: Config, branches: seq<Expr>, frame: MakeFrame)
    requires Tracks(s, m, config) && s != [] && FrameTracks(branches, frame, config)
    ensures Tracks(s[|s| - 1 := branches], m[|m| - 1 := frame], config)
  {
  }

  lemma {:induction false} StepTracks(s: seq<seq<Expr>>, m: seq<MakeFrame>, config: Config, line: Line, truth: bool)
    requires Tracks(s, m, config) && (line.If? || line.ElseIf? ==> Faithful(line.cond, truth, config))
    ensures Tracks(StackStep(s, line), MakeStep(m, line, truth), config)
  {
    var n := |s| - 1;
    match line
    case If(cond) =>
      FirstBranch(cond, truth, config);
      hide FrameTracks, Faithful;
    case ElseIf(cond) =>
      if s != [] {
        NextBranch(s[n], m[n], config, cond, truth);
        LastReplaced(s, m, config, s[n] + [cond], MakeFrame(m[n].taken || truth, !m[n].taken && truth));
      }
    case Else =>
      if s != [] {
        ElseHolds(config);
        NextBranch(s[n], m[n], config, Const(Y), true);
        LastReplaced(s, m, config, s[n] + [Const(Y)], MakeFrame(true, !m[n].taken));
      }
    case _ =>
  }

  /** The stack follows make frame by frame. */
  lemma {:induction false} StackTracksMake(lines: seq<Line>, truths: seq<bool>, config: Config, n: nat)
    requires Truthful(lines, truths, config) && n <= |lines|
    ensures Tracks(StackAfter(lines, n), MakeAfter(lines, truths, n), config)
    decreases n
  {
    if n > 0 {
      StackTracksMake(lines, truths, config, n - 1);
      StepTracks(StackAfter(lines, n - 1), MakeAfter(lines, truths, n - 1), config, lines[n - 1], truths[n - 1]);
    }
  }

  lemma {:induction false} ElseHolds(config: Config)
    ensures Faithful(Const(Y), true, config)
  {
  }

  lemma {:induction false} FrameCondValue(branches: seq<Expr>, config: Config)
    requires branches != []
    ensures var n := |branches| - 1; var v := Evaluate(FrameCond(branches), config);
            && (forall i :: 0 <= i < n ==> Rank(v) <= Rank(Negated(Evaluate(branches[i], config))))
            && Rank(v) <= Rank(Evaluate(branches[n], config))
            && (v == Evaluate(branches[n], config) || exists i :: 0 <= i < n && v == Negated(Evaluate(branches[i], config)))
  {
    var n := |branches| - 1;
    var terms := Negations(branches[..n]) + [branches[n]];
    FoldingKeepsValue(terms, Const(Y), config);
    LowestOf(terms, config);
    forall i | 0 <= i < n ensures Evaluate(terms[i], config) == Negated(Evaluate(branches[i], config)) {
      assert terms[i] == NotOf(branches[i]);
      FoldingKeepsValue([], branches[i], config);
    }
    assert terms[n] == branches[n];
  }

  /** A frame's verdict is right about make: "n" means skipped and a built verdict means read. */
  lemma {:induction false} FrameVerdict(branches: seq<Expr>, frame: MakeFrame, config: Config)
    requires FrameTracks(branches, frame, config)
    ensures branches != [] && (Evaluate(FrameCond(branches), config) == N ==> !frame.active)
    ensures Evaluate(FrameCond(branches), config) == M || Evaluate(FrameCond(branches), config) == Y ==> frame.active
  {
    var found :| FrameOk(branches, found, frame, config);
    var n := |branches| - 1;
    FrameCondValue(branches, config);
    var v := Evaluate(FrameCond(branches), config);
    hide FrameCond;
    if v == N && v != Evaluate(branches[n], config) {
      var i :| 0 <= i < n && v == Negated(Evaluate(branches[i], config));
      assert Faithful(branches[i], found[i], config);
    }
    if v == M || v == Y {
      forall i | 0 <= i < n ensures !found[i] {
        assert Faithful(branches[i], found[i], config);
      }
      assert Faithful(branches[n], found[n], config);
    }
  }

  lemma {:induction false} CondFrom(frames: seq<seq<Expr>>, transparent: bool, i: nat) returns (f: nat)
    requires NonEmpty(frames) && i < |FrameConds(frames, transparent)|
    ensures f < |frames| && FrameConds(frames, transparent)[i] == FrameCond(frames[f])
    decreases |frames|
  {
    var n := |frames| - 1;
    if i < |FrameConds(frames[..n], transparent)| {
      f := CondFrom(frames[..n], transparent, i);
    } else {
      f := n;
    }
  }

  lemma {:induction false} CondOf(frames: seq<seq<Expr>>, transparent: bool, f: nat) returns (i: nat)
    requires NonEmpty(frames) && f < |frames| && !(transparent && AnyUnknown(frames[f]))
    ensures i < |FrameConds(frames, transparent)| && FrameConds(frames, transparent)[i] == FrameCond(frames[f])
    decreases |frames|
  {
    var n := |frames| - 1;
    if f < n {
      i := CondOf(frames[..n], transparent, f);
    } else {
      i := |FrameConds(frames[..n], transparent)|;
    }
  }

  /** A line whose condition is "n" is skipped by make, however the unknown conditions turn out. */
  lemma {:induction false} NotBuiltIsSkipped(lines: seq<Line>, truths: seq<bool>, config: Config, n: nat, transparent: bool)
    requires Truthful(lines, truths, config) && n <= |lines| && NonEmpty(StackAfter(lines, n))
    requires Evaluate(Current(StackAfter(lines, n), transparent), config) == N
    ensures !MakeReads(MakeAfter(lines, truths, n))
  {
    var frames := StackAfter(lines, n);
    var conds := FrameConds(frames, transparent);
    StackTracksMake(lines, truths, config, n);
    FoldingKeepsValue(conds, Const(Y), config);
    LowestOf(conds, config);
    var i :| 0 <= i < |conds| && Evaluate(conds[i], config) == N;
    var f := CondFrom(frames, transparent, i);
    FrameVerdict(frames[f], MakeAfter(lines, truths, n)[f], config);
  }

  /** A line whose condition is definitely built is read by make, unless a frame was skipped as unknown. */
  lemma {:induction false} BuiltIsRead(lines: seq<Line>, truths: seq<bool>, config: Config, n: nat, transparent: bool)
    requires Truthful(lines, truths, config) && n <= |lines| && NonEmpty(StackAfter(lines, n))
    requires transparent ==> forall f :: 0 <= f < |StackAfter(lines, n)| ==> !AnyUnknown(StackAfter(lines, n)[f])
    requires Evaluate(Current(StackAfter(lines, n), transparent), config) == M || Evaluate(Current(StackAfter(lines, n), transparent), config) == Y
    ensures MakeReads(MakeAfter(lines, truths, n))
  {
    var frames := StackAfter(lines, n);
    var conds := FrameConds(frames, transparent);
    StackTracksMake(lines, truths, config, n);
    FoldingKeepsValue(conds, Const(Y), config);
    LowestOf(conds, config);
    forall f | 0 <= f < |frames| ensures MakeAfter(lines, truths, n)[f].active {
      var i := CondOf(frames, transparent, f);
      assert Rank(Lowest(conds, config)) <= Rank(Evaluate(conds[i], config));
      FrameVerdict(frames[f], MakeAfter(lines, truths, n)[f], config);
    }
  }

  predicate Boolean(e: Expr)
    decreases e
  {
    match e
    case Const(value) => value != M
    case Sym(_) => false
    case Not(e1) => Boolean(e1)
    case And(terms) => forall i :: 0 <= i < |terms| ==> Boolean(terms[i])
    case Or(terms) => forall i :: 0 <= i < |terms| ==> Boolean(terms[i])
    case _ => true
  }

  /** Conditions of directives contain no tristate symbols, so they are never "m". */
  lemma {:induction false} BooleanIsNotModule(e: Expr, config: Config)
    requires Boolean(e)
    ensures Evaluate(e, config) != M
    decreases e
  {
    match e
    case And(terms) =>
      forall i | 0 <= i < |terms| ensures Evaluate(terms[i], config) != M {
        BooleanIsNotModule(terms[i], config);
      }
      LowestOf(terms, config);
    case Or(terms) =>
      forall i | 0 <= i < |terms| ensures Evaluate(terms[i], config) != M {
        BooleanIsNotModule(terms[i], config);
      }
      HighestOf(terms, config);
    case _ =>
  }

  predicate PlainCond(cond: Expr) {
    Boolean(cond) && !HasUnknown(cond)
  }

  lemma {:induction false} PlainStack(lines: seq<Line>, n: nat)
    requires n <= |lines| && forall k :: 0 <= k < |lines| && (lines[k].If? || lines[k].ElseIf?) ==> PlainCond(lines[k].cond)
    ensures forall f, i :: 0 <= f < |StackAfter(lines, n)| && 0 <= i < |StackAfter(lines, n)[f]| ==> PlainCond(StackAfter(lines, n)[f][i])
    decreases n
  {
    if n > 0 {
      PlainStack(lines, n - 1);
      assert PlainCond(Const(Y));
      hide PlainCond;
    }
  }

  lemma {:induction false} PlainFrame(branches: seq<Expr>, config: Config)
    requires branches != [] && (forall i :: 0 <= i < |branches| ==> PlainCond(branches[i])) && forall sym :: config(sym).Some?
    ensures Evaluate(FrameCond(branches), config) == N || Evaluate(FrameCond(branches), config) == Y
    ensures !AnyUnknown(branches)
  {
    forall i | 0 <= i < |branches| ensures Evaluate(branches[i], config) == N || Evaluate(branches[i], config) == Y {
      assert PlainCond(branches[i]);
      BooleanIsNotModule(branches[i], config);
      KnownIsDefinite(branches[i], config);
    }
    FrameCondValue(branches, config);
  }

  /** When nothing is unknown, the condition is exactly "y" where make reads the line and exactly "n" where it does not. */
  lemma {:induction false} ExactWhenKnown(lines: seq<Line>, truths: seq<bool>, config: Config, n: nat, transparent: bool)
    requires Truthful(lines, truths, config) && n <= |lines| && NonEmpty(StackAfter(lines, n))
    requires forall k :: 0 <= k < |lines| && (lines[k].If? || lines[k].ElseIf?) ==> PlainCond(lines[k].cond)
    requires forall sym :: config(sym).Some?
    ensures Evaluate(Current(StackAfter(lines, n), transparent), config) == if MakeReads(MakeAfter(lines, truths, n)) then Y else N
  {
    var frames := StackAfter(lines, n);
    var conds := FrameConds(frames, transparent);
    PlainStack(lines, n);
    forall f | 0 <= f < |frames|
      ensures Evaluate(FrameCond(frames[f]), config) == N || Evaluate(FrameCond(frames[f]), config) == Y
      ensures !AnyUnknown(frames[f])
    {
      PlainFrame(frames[f], config);
    }
    FoldingKeepsValue(conds, Const(Y), config);
    LowestOf(conds, config);
    forall i | 0 <= i < |conds| ensures Evaluate(conds[i], config) == N || Evaluate(conds[i], config) == Y {
      var f := CondFrom(frames, transparent, i);
    }
    var v := Evaluate(Current(frames, transparent), config);
    hide FrameCond, FrameConds, StackAfter, MakeAfter, MakeReads, Truthful, NonEmpty;
    if v == N {
      NotBuiltIsSkipped(lines, truths, config, n, transparent);
    } else {
      BuiltIsRead(lines, truths, config, n, transparent);
    }
  }
}
