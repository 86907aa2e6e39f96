/**
 What the emitted WHERE clause means to the database. The reference compiler is
 right on every tree; the code's text is the reference text exactly on trees
 that are aligned and keep bare words alone; and, parameters bound, the code's
 clause is read as the reference clause exactly when the restarted placeholder
 numbers resolve to the right texts and bare words stay alone.
 */
module QueryMeaning {
  import opened Query
  import opened SqlText
  import opened QueryCompiler

  // ─── Binding goes through Build ───

  function BindArgs(args: seq<Arg>, params: seq<string>): (r: seq<Arg>)
    ensures |r| == |args|
  {
    seq(|args|, i requires 0 <= i < |args| => BindArg(args[i], params))
  }

  function BindAll(cs: seq<Disj>, params: seq<string>): (r: seq<Disj>)
    ensures |r| == |cs|
    ensures Solid(cs) ==> Solid(r)
  {
    seq(|cs|, i requires 0 <= i < |cs| => BindOr(cs[i], params))
  }

  lemma BindGlueTwo(a: Disj, b: Disj, params: seq<string>)
    requires a != [] && b != []
    ensures BindOr(GlueTwo(a, b), params) == GlueTwo(BindOr(a, params), BindOr(b, params))
  {
    var front, last := a[..|a| - 1], a[|a| - 1];
    assert a == front + [last];
    assert b == [b[0]] + b[1..];
    BindOrAppend(front, [last], params);
    BindOrAppend(front, [Conj(last.units + b[0].units)], params);
    BindOrAppend(front + [Conj(last.units + b[0].units)], b[1..], params);
    BindAndAppend(last.units, b[0].units, params);
    BindOne(last, params);
    BindOne(Conj(last.units + b[0].units), params);
  }

  lemma BindOne(c: Conj, params: seq<string>)
    ensures BindOr([c], params) == [Conj(BindAnd(c.units, params))]
  {
  }

  lemma BindUnits(u: Unit, params: seq<string>)
    ensures BindOr([Conj([u])], params) == [Conj([BindUnit(u, params)])]
  {
    BindOne(Conj([u]), params);
    assert BindAnd([u], params) == [BindUnit(u, params)];
  }

  lemma {:induction false} BindGlueAll(cs: seq<Disj>, params: seq<string>)
    requires cs != [] && Solid(cs)
    ensures BindOr(GlueAll(cs), params) == GlueAll(BindAll(cs, params))
  {
    if |cs| > 1 {
      BindGlueAll(cs[1..], params);
      BindGlueTwo(cs[0], GlueAll(cs[1..]), params);
      assert BindAll(cs, params)[1..] == BindAll(cs[1..], params);
    }
  }

  lemma {:induction false} BindWrapAll(cs: seq<Disj>, params: seq<string>)
    requires Solid(cs)
    ensures BindAnd(WrapAll(cs), params) == WrapAll(BindAll(cs, params))
  {
    if cs != [] {
      BindWrapAll(cs[1..], params);
      assert BindAll(cs, params)[1..] == BindAll(cs[1..], params);
      var first := if |cs[0]| == 1 then cs[0][0].units else [Group(cs[0])];
      BindAndAppend(first, WrapAll(cs[1..]), params);
      if |cs[0]| == 1 {
        BindOne(cs[0][0], params);
        assert cs[0] == [cs[0][0]];
      } else {
        assert BindAnd(first, params) == [BindUnit(Group(cs[0]), params)];
      }
    }
  }

  lemma BindGlue(cs: seq<Disj>, wrap: bool, params: seq<string>)
    requires cs != [] && Solid(cs)
    ensures BindOr(Glue(cs, wrap), params) == Glue(BindAll(cs, params), wrap)
    ensures BindOr(Side(cs, wrap), params) == Side(BindAll(cs, params), wrap)
  {
    BindGlueAll(cs, params);
    BindWrapAll(cs, params);
    BindOne(Conj(WrapAll(cs)), params);
    BindUnits(Group(Glue(cs, wrap)), params);
  }

  lemma {:induction false} BindWords(columns: seq<string>, arg: Arg, params: seq<string>)
    ensures BindOr(WordAlternatives(columns, arg), params) == WordAlternatives(columns, BindArg(arg, params))
  {
    if columns != [] {
      BindWords(columns[1..], arg, params);
      BindUnits(Atom(WordIn(columns[0]), arg), params);
    }
  }

  lemma BindLeaf(term: FilterTerm, arg: Arg, params: seq<string>)
    ensures BindOr(LeafCondition(term, arg), params) == LeafCondition(term, BindArg(arg, params))
  {
    BindWords(FULL_TEXT_COLUMNS, arg, params);
    BindUnits(Atom(HasTag(term.value), NoArg), params);
    BindUnits(Atom(PortIs, arg), params);
    BindUnits(Atom(FalseLit, NoArg), params);
    BindUnits(Atom(CountryIs, arg), params);
    BindUnits(Atom(HasField(term.key, term.value), NoArg), params);
    BindUnits(Atom(TextOp(term.key, term.op), arg), params);
    BindUnits(Negated(Group(LeafBody(term, arg))), params);
    assert BindUnit(Negated(Group(LeafBody(term, arg))), params)
        == Negated(BindUnit(Group(LeafBody(term, arg)), params));
  }

  lemma BindConditions(a: seq<Disj>, b: seq<Disj>, wrap: bool, params: seq<string>)
    requires a != [] && Solid(a) && b != [] && Solid(b)
    ensures BindOr(OrCondition(a, b, wrap), params)
         == OrCondition(BindAll(a, params), BindAll(b, params), wrap)
    ensures BindOr(NotCondition(a, wrap), params) == NotCondition(BindAll(a, params), wrap)
  {
    BindGlue(a, wrap, params);
    BindGlue(b, wrap, params);
    BindOrAppend(Side(a, wrap), Side(b, wrap), params);
    BindUnits(Group(Side(a, wrap) + Side(b, wrap)), params);
    var body := Group(Glue(a, wrap));
    BindUnits(Negated(body), params);
    assert BindUnit(Negated(body), params) == Negated(BindUnit(body, params));
  }

  lemma BindFilter(term: FilterTerm, args: seq<Arg>, wrap: bool, params: seq<string>)
    requires |args| == |LiveParams(Filter(term))|
    ensures BindAll(Build(Filter(term), args, wrap), params)
         == Build(Filter(term), BindArgs(args, params), wrap)
  {
    BindLeaf(term, if args == [] then NoArg else args[0], params);
  }

  lemma BindArgsSplit(args: seq<Arg>, n: nat, params: seq<string>)
    requires n <= |args|
    ensures BindArgs(args, params)[..n] == BindArgs(args[..n], params)
    ensures BindArgs(args, params)[n..] == BindArgs(args[n..], params)
  {
  }

  lemma BindAllAppend(a: seq<Disj>, b: seq<Disj>, params: seq<string>)
    ensures BindAll(a + b, params) == BindAll(a, params) + BindAll(b, params)
    ensures forall c: Disj :: BindAll([c], params) == [BindOr(c, params)]
  {
  }

  /** Binding the clause's tree is building the tree from bound leaves. */
  lemma {:induction false} BindBuild(node: QueryNode, args: seq<Arg>, wrap: bool, params: seq<string>)
    requires |args| == |LiveParams(node)|
    ensures BindAll(Build(node, args, wrap), params) == Build(node, BindArgs(args, params), wrap)
  {
    hide BindOr, BindAll, OrCondition, NotCondition, LeafCondition, BindArgs;
    match node
    case Filter(term) =>
      BindFilter(term, args, wrap, params);
    case And(l, r) =>
      var n := |LiveParams(l)|;
      BindBuild(l, args[..n], wrap, params);
      BindBuild(r, args[n..], wrap, params);
      BindArgsSplit(args, n, params);
      BindAllAppend(Build(l, args[..n], wrap), Build(r, args[n..], wrap), params);
    case Or(l, r) =>
      if Vacuous(node) {
        BindAllAppend([], [], params);
      } else {
        var n := |LiveParams(l)|;
        BindBuild(l, args[..n], wrap, params);
        BindBuild(r, args[n..], wrap, params);
        BindArgsSplit(args, n, params);
        BindConditions(Build(l, args[..n], wrap), Build(r, args[n..], wrap), wrap, params);
        BindAllAppend([], [], params);
      }
    case Not(inner) =>
      BindAllAppend([], [], params);
      if !Vacuous(node) {
        BindBuild(inner, args, wrap, params);
        BindConditions(Build(inner, args, wrap), Build(inner, args, wrap), wrap, params);
      }
  }

  lemma BindClauseTree(node: QueryNode, args: seq<Arg>, wrap: bool, params: seq<string>)
    requires |args| == |LiveParams(node)|
    ensures BindOr(ClauseTree(Build(node, args, wrap), wrap), params)
         == ClauseTree(Build(node, BindArgs(args, params), wrap), wrap)
  {
    BindBuild(node, args, wrap, params);
    if Vacuous(node) {
      BindUnits(Atom(TrueLit, NoArg), params);
    } else {
      BindGlue(Build(node, args, wrap), wrap, params);
    }
  }

  // ─── The reference compiler is right ───

  /** All conditions hold. */
  function EvalAll(cs: seq<Disj>, row: Row): Tri {
    if cs == [] then T else And3(EvalOr(cs[0], row), EvalAll(cs[1..], row))
  }

  lemma {:induction false} EvalAllAppend(a: seq<Disj>, b: seq<Disj>, row: Row)
    ensures EvalAll(a + b, row) == And3(EvalAll(a, row), EvalAll(b, row))
  {
    if a == [] {
      assert a + b == b;
    } else {
      assert (a + b)[1..] == a[1..] + b;
      EvalAllAppend(a[1..], b, row);
    }
  }

  lemma EvalOne(u: Unit, row: Row)
    ensures EvalOr([Conj([u])], row) == EvalUnit(u, row)
  {
    assert EvalAnd([u], row) == And3(EvalUnit(u, row), EvalAnd([], row));
  }

  lemma {:induction false} EvalWrapAll(cs: seq<Disj>, row: Row)
    requires Solid(cs)
    ensures EvalAnd(WrapAll(cs), row) == EvalAll(cs, row)
  {
    if cs != [] {
      EvalWrapAll(cs[1..], row);
      var first := if |cs[0]| == 1 then cs[0][0].units else [Group(cs[0])];
      EvalAndAppend(first, WrapAll(cs[1..]), row);
      if |cs[0]| == 1 {
        assert cs[0] == [cs[0][0]];
        assert EvalOr(cs[0], row) == Or3(EvalAnd(cs[0][0].units, row), EvalOr([], row));
      } else {
        assert EvalAnd(first, row) == And3(EvalUnit(first[0], row), EvalAnd([], row));
      }
    }
  }

  lemma EvalGlue(cs: seq<Disj>, row: Row)
    requires cs != [] && Solid(cs)
    ensures EvalOr(Glue(cs, true), row) == EvalAll(cs, row)
    ensures EvalOr(Side(cs, true), row) == EvalAll(cs, row)
  {
    EvalWrapAll(cs, row);
    var all := WrapAll(cs);
    assert EvalOr([Conj(all)], row) == Or3(EvalAnd(all, row), EvalOr([], row));
    if |cs| == 1 {
      assert EvalAll(cs, row) == And3(EvalOr(cs[0], row), EvalAll([], row));
    }
    EvalOne(Group(Glue(cs, true)), row);
  }

  lemma {:induction false} EvalWords(columns: seq<string>, arg: Arg, row: Row)
    ensures EvalOr(WordAlternatives(columns, arg), row) == AnyColumn(columns, arg, row)
  {
    if columns != [] {
      EvalWords(columns[1..], arg, row);
      EvalOne(Atom(WordIn(columns[0]), arg), row);
      EvalOrAppend([Conj([Atom(WordIn(columns[0]), arg)])], WordAlternatives(columns[1..], arg), row);
    }
  }

  lemma EvalLeaf(term: FilterTerm, row: Row)
    ensures EvalOr(LeafCondition(term, if HasParam(term) then Bound(ParamText(term)) else NoArg), row)
         == TermMeaning(term, row)
  {
    var arg := if HasParam(term) then Bound(ParamText(term)) else NoArg;
    EvalWords(FULL_TEXT_COLUMNS, arg, row);
    EvalOne(Atom(HasTag(term.value), NoArg), row);
    EvalOne(Atom(PortIs, arg), row);
    EvalOne(Atom(FalseLit, NoArg), row);
    EvalOne(Atom(CountryIs, arg), row);
    EvalOne(Atom(HasField(term.key, term.value), NoArg), row);
    EvalOne(Atom(TextOp(term.key, term.op), arg), row);
    var body := Group(LeafBody(term, arg));
    EvalOne(Negated(body), row);
    assert EvalUnit(Negated(body), row) == Not3(EvalUnit(body, row));
  }

  lemma EvalConditions(a: seq<Disj>, b: seq<Disj>, row: Row)
    requires a != [] && Solid(a) && b != [] && Solid(b)
    ensures EvalOr(OrCondition(a, b, true), row) == Or3(EvalAll(a, row), EvalAll(b, row))
    ensures EvalOr(NotCondition(a, true), row) == Not3(EvalAll(a, row))
  {
    EvalGlue(a, row);
    EvalGlue(b, row);
    EvalOrAppend(Side(a, true), Side(b, true), row);
    EvalOne(Group(Side(a, true) + Side(b, true)), row);
    var body := Group(Glue(a, true));
    EvalOne(Negated(body), row);
    assert EvalUnit(Negated(body), row) == Not3(EvalUnit(body, row));
  }

  lemma BoundsAppend(a: seq<string>, b: seq<string>)
    ensures Bounds(a + b) == Bounds(a) + Bounds(b)
  {
  }

  lemma EvalAllOne(c: Disj, row: Row)
    ensures EvalAll([c], row) == EvalOr(c, row)
  {
    assert EvalAll([c], row) == And3(EvalOr(c, row), EvalAll([], row));
  }

  /** Conditions built from the right texts, joins wrapped, mean the tree. */
  lemma {:induction false} BuildMeaning(node: QueryNode, row: Row)
    ensures EvalAll(Build(node, Bounds(LiveParams(node)), true), row) == Meaning(node, row)
  {
    match node
    case Filter(term) =>
      EvalLeaf(term, row);
      EvalAllOne(LeafCondition(term, if HasParam(term) then Bound(ParamText(term)) else NoArg), row);
    case And(l, r) =>
      BuildMeaning(l, row);
      BuildMeaning(r, row);
      BoundsAppend(LiveParams(l), LiveParams(r));
      BuildAnd(l, r, Bounds(LiveParams(l)), Bounds(LiveParams(r)), true);
      EvalAllAppend(Build(l, Bounds(LiveParams(l)), true), Build(r, Bounds(LiveParams(r)), true), row);
    case Or(l, r) =>
      if !Vacuous(node) {
        BuildMeaning(l, row);
        BuildMeaning(r, row);
        BoundsAppend(LiveParams(l), LiveParams(r));
        BuildOr(l, r, Bounds(LiveParams(l)), Bounds(LiveParams(r)), true);
        var a, b := Build(l, Bounds(LiveParams(l)), true), Build(r, Bounds(LiveParams(r)), true);
        EvalConditions(a, b, row);
        EvalAllOne(OrCondition(a, b, true), row);
      }
    case Not(inner) =>
      if !Vacuous(node) {
        BuildMeaning(inner, row);
        var a := Build(inner, Bounds(LiveParams(inner)), true);
        EvalConditions(a, a, row);
        EvalAllOne(NotCondition(a, true), row);
      }
  }

  lemma ClauseTreeMeaning(node: QueryNode, row: Row)
    ensures EvalOr(ClauseTree(Build(node, Bounds(LiveParams(node)), true), true), row) == Meaning(node, row)
  {
    BuildMeaning(node, row);
    if Vacuous(node) {
      EvalOne(Atom(TrueLit, NoArg), row);
    } else {
      EvalGlue(Build(node, Bounds(LiveParams(node)), true), row);
    }
  }
}
