/**
 When the emitted clause is the right one: the three main results about
 `compile_to_sql`, and witnesses that their conditions are needed.
 */
module QueryAgreement {
  import opened Query
  import opened SqlText
  import opened Text
  import opened QueryCompiler
  import opened QueryMeaning

  // ─── Joins ───

  predicate Joinable(chains: seq<bool>) {
    |chains| <= 1 || true !in chains
  }

  lemma {:induction false} GlueSingles(cs: seq<Disj>)
    requires cs != [] && forall i :: 0 <= i < |cs| ==> |cs[i]| == 1
    ensures GlueAll(cs) == [Conj(WrapAll(cs))]
  {
    if |cs| == 1 {
      assert WrapAll(cs) == cs[0][0].units;
      assert cs[0] == [Conj(cs[0][0].units)];
    } else {
      GlueSingles(cs[1..]);
    }
  }

  lemma {:induction false} GlueKeepsAlternatives(cs: seq<Disj>, i: nat)
    requires i < |cs| && Solid(cs)
    ensures |GlueAll(cs)| >= |cs[i]|
  {
    if |cs| > 1 {
      if i > 0 {
        GlueKeepsAlternatives(cs[1..], i - 1);
      }
    }
  }

  lemma {:induction false} WrapSinglesInjective(cs: seq<Disj>, ds: seq<Disj>)
    requires |cs| == |ds|
    requires forall i :: 0 <= i < |cs| ==> |cs[i]| == 1 && |cs[i][0].units| == 1
    requires forall i :: 0 <= i < |ds| ==> |ds[i]| == 1 && |ds[i][0].units| == 1
    requires WrapAll(cs) == WrapAll(ds)
    ensures cs == ds
  {
    if cs != [] {
      var u, v := cs[0][0].units[0], ds[0][0].units[0];
      assert cs[0][0] == Conj([u]) && ds[0][0] == Conj([v]);
      assert WrapAll(cs) == [u] + WrapAll(cs[1..]);
      assert WrapAll(ds) == [v] + WrapAll(ds[1..]);
      assert WrapAll(cs)[0] == u && WrapAll(ds)[0] == v;
      assert WrapAll(cs)[1..] == WrapAll(cs[1..]) && WrapAll(ds)[1..] == WrapAll(ds[1..]);
      WrapSinglesInjective(cs[1..], ds[1..]);
      assert cs[0] == [Conj([u])] && ds[0] == [Conj([v])];
      assert cs == [cs[0]] + cs[1..] && ds == [ds[0]] + ds[1..];
    }
  }

  lemma ShapedSingles(cs: seq<Disj>, chains: seq<bool>)
    requires Shaped(cs, chains) && true !in chains
    ensures forall i :: 0 <= i < |cs| ==> |cs[i]| == 1 && |cs[i][0].units| == 1
  {
    forall i | 0 <= i < |cs| ensures |cs[i]| == 1 && |cs[i][0].units| == 1 {
      assert ShapedOne(cs[i], chains[i]);
      assert !chains[i];
    }
  }

  /** A plain join equals a wrapped one exactly when no chain of ORs is in it. */
  lemma GlueAgrees(cs: seq<Disj>, ds: seq<Disj>, chains: seq<bool>)
    requires cs != [] && ds != [] && Solid(cs) && Solid(ds)
    requires Shaped(cs, chains) && Shaped(ds, chains)
    ensures (Glue(cs, false) == Glue(ds, true)) <==> (Joinable(chains) && cs == ds)
  {
    hide WfOr, WfAnd, WfUnit;
    if |cs| == 1 {
      assert cs == [cs[0]] && ds == [ds[0]];
    } else if true in chains {
      var i :| 0 <= i < |chains| && chains[i];
      assert ShapedOne(cs[i], true);
      GlueKeepsAlternatives(cs, i);
    } else {
      ShapedSingles(cs, chains);
      ShapedSingles(ds, chains);
      GlueSingles(cs);
      if WrapAll(cs) == WrapAll(ds) {
        WrapSinglesInjective(cs, ds);
      }
    }
  }

  lemma SideAgrees(cs: seq<Disj>, ds: seq<Disj>, chains: seq<bool>)
    requires cs != [] && ds != [] && Solid(cs) && Solid(ds)
    requires Shaped(cs, chains) && Shaped(ds, chains)
    ensures (Side(cs, false) == Side(ds, true)) <==> (Joinable(chains) && cs == ds)
    ensures |Side(cs, false)| == |Side(ds, true)|
  {
    hide Glue;
    GlueAgrees(cs, ds, chains);
    if |cs| == 1 {
      assert ShapedOne(cs[0], chains[0]) && ShapedOne(ds[0], chains[0]);
      assert cs == [cs[0]] && ds == [ds[0]];
    } else {
      GroupInjective(Glue(cs, false), Glue(ds, true));
    }
  }

  lemma GroupInjective(a: Disj, b: Disj)
    ensures ([Conj([Group(a)])] == [Conj([Group(b)])]) <==> a == b
    ensures ([Conj([Negated(Group(a))])] == [Conj([Negated(Group(b))])]) <==> a == b
  {
    var x, y := Conj([Group(a)]), Conj([Group(b)]);
    if [x] == [y] {
      assert [x][0] == [y][0];
      assert x.units[0] == y.units[0];
    }
    var v, w := Conj([Negated(Group(a))]), Conj([Negated(Group(b))]);
    if [v] == [w] {
      assert [v][0] == [w][0];
      assert v.units[0] == w.units[0];
    }
  }

  lemma ConditionsAgree(
    a: seq<Disj>, b: seq<Disj>, c: seq<Disj>, d: seq<Disj>, left: seq<bool>, right: seq<bool>)
    requires a != [] && b != [] && c != [] && d != [] && Solid(a) && Solid(b) && Solid(c) && Solid(d)
    requires Shaped(a, left) && Shaped(c, left) && Shaped(b, right) && Shaped(d, right)
    ensures (OrCondition(a, b, false) == OrCondition(c, d, true))
       <==> (Joinable(left) && Joinable(right) && a == c && b == d)
    ensures (NotCondition(a, false) == NotCondition(c, true)) <==> (Joinable(left) && a == c)
  {
    hide Glue, Side, Shaped, Joinable;
    SideAgrees(a, c, left);
    SideAgrees(b, d, right);
    GlueAgrees(a, c, left);
    var x, y := Side(a, false) + Side(b, false), Side(c, true) + Side(d, true);
    GroupInjective(x, y);
    GroupInjective(Glue(a, false), Glue(c, true));
    if x == y {
      assert Side(a, false) == x[..|Side(a, false)|] && Side(c, true) == y[..|Side(c, true)|];
      assert Side(b, false) == x[|Side(a, false)|..] && Side(d, true) == y[|Side(c, true)|..];
    }
  }

  lemma WordAlternativesInjective(a: Arg, b: Arg)
    requires WordAlternatives(FULL_TEXT_COLUMNS, a) == WordAlternatives(FULL_TEXT_COLUMNS, b)
    ensures a == b
  {
    WordAlternativesWf(FULL_TEXT_COLUMNS, a);
    WordAlternativesWf(FULL_TEXT_COLUMNS, b);
    var x, y := Conj([Atom(WordIn(FULL_TEXT_COLUMNS[0]), a)]), Conj([Atom(WordIn(FULL_TEXT_COLUMNS[0]), b)]);
    assert x == WordAlternatives(FULL_TEXT_COLUMNS, a)[0] == WordAlternatives(FULL_TEXT_COLUMNS, b)[0] == y;
    assert x.units[0] == y.units[0];
  }

  lemma AtomInjective(pred: Predicate, a: Arg, b: Arg)
    requires [Conj([Atom(pred, a)])] == [Conj([Atom(pred, b)])]
    ensures a == b
  {
    var x, y := Conj([Atom(pred, a)]), Conj([Atom(pred, b)]);
    assert [x][0] == [y][0];
    assert x.units[0] == y.units[0];
  }

  lemma LeafInjective(term: FilterTerm, a: Arg, b: Arg)
    requires HasParam(term)
    requires LeafCondition(term, a) == LeafCondition(term, b)
    ensures a == b
  {
    GroupInjective(LeafBody(term, a), LeafBody(term, b));
    assert LeafBody(term, a) == LeafBody(term, b);
    match Classify(term)
    case Port => AtomInjective(PortIs, a, b);
    case Country => AtomInjective(CountryIs, a, b);
    case FullText => WordAlternativesInjective(a, b);
    case JsonText => AtomInjective(TextOp(term.key, term.op), a, b);
  }

  lemma FilterAgrees(term: FilterTerm, a: seq<Arg>, b: seq<Arg>)
    requires |a| == |b| == |LiveParams(Filter(term))|
    ensures (Build(Filter(term), a, false) == Build(Filter(term), b, true)) <==> a == b
  {
    if a != [] {
      assert a == [a[0]] && b == [b[0]];
      if LeafCondition(term, a[0]) == LeafCondition(term, b[0]) {
        LeafInjective(term, a[0], b[0]);
      }
      assert [LeafCondition(term, a[0])][0] == LeafCondition(term, a[0]);
    }
  }

  lemma AppendAgrees<A>(a: seq<A>, b: seq<A>, c: seq<A>, d: seq<A>)
    requires |a| == |c|
    ensures a + b == c + d <==> a == c && b == d
  {
    if a + b == c + d {
      assert a == (a + b)[..|a|] && c == (c + d)[..|c|];
      assert b == (a + b)[|a|..] && d == (c + d)[|c|..];
    }
  }

  lemma SplitAgrees<A>(a: seq<A>, b: seq<A>, n: nat)
    requires n <= |a| == |b|
    ensures a == b <==> a[..n] == b[..n] && a[n..] == b[n..]
  {
    AppendAgrees(a[..n], a[n..], b[..n], b[n..]);
    assert a == a[..n] + a[n..] && b == b[..n] + b[n..];
  }

  lemma Lengths(node: QueryNode, args: seq<Arg>, wrap: bool)
    requires |args| == |LiveParams(node)|
    ensures |Build(node, args, wrap)| == |Chains(node)|
  {
    BuildShaped(node, args, wrap);
  }

  /** The conditions agree exactly when inner bare words are alone and the leaves agree. */
  lemma {:induction false} BuildAgrees(node: QueryNode, a: seq<Arg>, b: seq<Arg>)
    requires |a| == |b| == |LiveParams(node)|
    ensures (Build(node, a, false) == Build(node, b, true)) <==> (InnerWordsAlone(node) && a == b)
  {
    hide OrCondition, NotCondition, LeafCondition, Shaped;
    match node
    case Filter(term) =>
      FilterAgrees(term, a, b);
    case And(l, r) =>
      var n := |LiveParams(l)|;
      BuildAgrees(l, a[..n], b[..n]);
      BuildAgrees(r, a[n..], b[n..]);
      SplitAgrees(a, b, n);
      Lengths(l, a[..n], false);
      Lengths(l, b[..n], true);
      AppendAgrees(Build(l, a[..n], false), Build(r, a[n..], false),
                   Build(l, b[..n], true), Build(r, b[n..], true));
    case Or(l, r) =>
      if !Vacuous(node) {
        var n := |LiveParams(l)|;
        BuildAgrees(l, a[..n], b[..n]);
        BuildAgrees(r, a[n..], b[n..]);
        SplitAgrees(a, b, n);
        BuildShaped(l, a[..n], false);
        BuildShaped(r, a[n..], false);
        BuildShaped(l, b[..n], true);
        BuildShaped(r, b[n..], true);
        ConditionsAgree(Build(l, a[..n], false), Build(r, a[n..], false),
                        Build(l, b[..n], true), Build(r, b[n..], true), Chains(l), Chains(r));
        AppendAgrees([], [OrCondition(Build(l, a[..n], false), Build(r, a[n..], false), false)],
                     [], [OrCondition(Build(l, b[..n], true), Build(r, b[n..], true), true)]);
      }
    case Not(inner) =>
      if !Vacuous(node) {
        BuildAgrees(inner, a, b);
        BuildShaped(inner, a, false);
        BuildShaped(inner, b, true);
        var x, y := Build(inner, a, false), Build(inner, b, true);
        ConditionsAgree(x, x, y, y, Chains(inner), Chains(inner));
      }
  }

  lemma ClauseTreeAgrees(node: QueryNode, a: seq<Arg>, b: seq<Arg>)
    requires |a| == |b| == |LiveParams(node)|
    ensures (ClauseTree(Build(node, a, false), false) == ClauseTree(Build(node, b, true), true))
       <==> (WordsAlone(node) && a == b)
  {
    BuildAgrees(node, a, b);
    BuildShaped(node, a, false);
    BuildShaped(node, b, true);
    if Vacuous(node) {
      assert a == b == [];
      VacuousWordsAlone(node);
    } else {
      GlueAgrees(Build(node, a, false), Build(node, b, true), Chains(node));
    }
  }

  lemma {:induction false} VacuousWordsAlone(node: QueryNode)
    requires Vacuous(node)
    ensures WordsAlone(node)
  {
    match node
    case And(l, r) =>
      VacuousWordsAlone(l);
      VacuousWordsAlone(r);
    case _ =>
  }

  // ─── Placeholder numbers ───

  lemma {:induction false} FirstNumber(node: QueryNode)
    requires LiveParams(node) != []
    ensures CodeNumbers(node, 0)[0] == 1
  {
    match node
    case Filter(term) =>
    case And(l, r) =>
      if LiveParams(l) != [] {
        FirstNumber(l);
      } else {
        FirstNumber(r);
        assert CodeNumbers(l, 0) == [];
      }
    case Or(l, r) =>
      if LiveParams(l) != [] {
        FirstNumber(l);
      } else {
        FirstNumber(r);
        assert CodeNumbers(l, 0) == [];
      }
    case Not(inner) =>
      FirstNumber(inner);
  }

  lemma {:induction false} NoParamsAligned(node: QueryNode, before: nat)
    requires LiveParams(node) == []
    ensures Aligned(node, before)
  {
    match node
    case Filter(term) =>
    case And(l, r) =>
      NoParamsAligned(l, before);
      NoParamsAligned(r, before);
    case Or(l, r) =>
      if !Vacuous(node) {
        NoParamsAligned(l, before);
        NoParamsAligned(r, before);
      }
    case Not(inner) =>
      NoParamsAligned(inner, before);
  }

  lemma StraightSplit(base: nat, m: nat, n: nat)
    ensures Straight(base, m + n) == Straight(base, m) + Straight(base + m, n)
  {
  }

  lemma OrNumbers(l: QueryNode, r: QueryNode, before: nat)
    requires !Vacuous(Or(l, r))
    ensures CodeNumbers(Or(l, r), before) == CodeNumbers(l, 0) + CodeNumbers(r, 0)
    ensures LiveParams(Or(l, r)) == LiveParams(l) + LiveParams(r)
    ensures Aligned(Or(l, r), before) <==>
      && (|LiveParams(l)| + |LiveParams(r)| == 0 || before == 0)
      && (LiveParams(l) == [] || LiveParams(r) == [])
      && Aligned(l, before) && Aligned(r, before + |LiveParams(l)|)
  {
  }

  lemma AlignedOr(l: QueryNode, r: QueryNode, before: nat)
    requires !Vacuous(Or(l, r))
    requires CodeNumbers(l, 0) == Straight(0, |LiveParams(l)|) <==> Aligned(l, 0)
    requires CodeNumbers(r, 0) == Straight(0, |LiveParams(r)|) <==> Aligned(r, 0)
    ensures CodeNumbers(Or(l, r), before) == Straight(before, |LiveParams(Or(l, r))|)
       <==> Aligned(Or(l, r), before)
  {
    OrNumbers(l, r, before);
    hide CodeNumbers, Aligned, LiveParams, Vacuous;
    var m, n := |LiveParams(l)|, |LiveParams(r)|;
    var ks := CodeNumbers(l, 0) + CodeNumbers(r, 0);
    if m == 0 {
      NoParamsAligned(l, before);
      assert ks == CodeNumbers(r, 0);
      if n == 0 {
        NoParamsAligned(r, before);
      } else {
        FirstNumber(r);
        assert Straight(before, n)[0] == before + 1;
      }
    } else if n == 0 {
      NoParamsAligned(r, before + m);
      assert ks == CodeNumbers(l, 0);
      FirstNumber(l);
      assert Straight(before, m)[0] == before + 1;
    } else {
      FirstNumber(r);
      assert ks[m] == 1;
      assert Straight(before, m + n)[m] == before + 1 + m;
    }
  }

  lemma AlignedAnd(l: QueryNode, r: QueryNode, before: nat)
    requires CodeNumbers(l, before) == Straight(before, |LiveParams(l)|) <==> Aligned(l, before)
    requires var m := before + |LiveParams(l)|;
      CodeNumbers(r, m) == Straight(m, |LiveParams(r)|) <==> Aligned(r, m)
    ensures CodeNumbers(And(l, r), before) == Straight(before, |LiveParams(And(l, r))|)
       <==> Aligned(And(l, r), before)
  {
    var m, n := |LiveParams(l)|, |LiveParams(r)|;
    AndNumbers(l, r, before);
    hide CodeNumbers;
    StraightSplit(before, m, n);
    AppendAgrees(CodeNumbers(l, before), CodeNumbers(r, before + m),
                 Straight(before, m), Straight(before + m, n));
  }

  /** The restarting count equals the straight one exactly on aligned trees. */
  lemma {:induction false} AlignedNumbers(node: QueryNode, before: nat)
    ensures CodeNumbers(node, before) == Straight(before, |LiveParams(node)|) <==> Aligned(node, before)
  {
    match node
    case Filter(term) =>
    case And(l, r) =>
      AlignedNumbers(l, before);
      AlignedNumbers(r, before + |LiveParams(l)|);
      AlignedAnd(l, r, before);
    case Or(l, r) =>
      if !Vacuous(node) {
        AlignedNumbers(l, 0);
        AlignedNumbers(r, 0);
        AlignedOr(l, r, before);
      }
    case Not(inner) =>
      AlignedNumbers(inner, 0);
      if LiveParams(inner) == [] {
        NoParamsAligned(inner, before);
      } else {
        FirstNumber(inner);
        assert Straight(before, |LiveParams(inner)|)[0] == before + 1;
      }
  }

  lemma HolesInjective(a: seq<nat>, b: seq<nat>)
    ensures Holes(a) == Holes(b) <==> a == b
  {
    if Holes(a) == Holes(b) {
      forall i | 0 <= i < |a| ensures a[i] == b[i] {
        assert Holes(a)[i] == Hole(a[i]) && Holes(b)[i] == Hole(b[i]);
      }
    }
  }

  // ─── Main results ───

  /**
   The database accepts every emitted clause and reads it as the tree of the
   conditions glued together; the same for the reference clause.
   */
  lemma ClauseReads(node: QueryNode)
    ensures Read(Clause(node))
         == Accept(ClauseTree(Build(node, Holes(CodeNumbers(node, 0)), false), false), [])
    ensures Read(RefClause(node))
         == Accept(ClauseTree(Build(node, Holes(Straight(0, |LiveParams(node)|)), true), true), [])
  {
    ClauseTreeWf(node, Holes(CodeNumbers(node, 0)), false);
    ClauseTreeWf(node, Holes(Straight(0, |LiveParams(node)|)), true);
    ReadPrint(ClauseTree(Build(node, Holes(CodeNumbers(node, 0)), false), false));
    ReadPrint(ClauseTree(Build(node, Holes(Straight(0, |LiveParams(node)|)), true), true));
  }

  /** A clause as the database evaluates it on a row, once its parameters are bound. */
  function Answer(clause: seq<SqlToken>, params: seq<string>, row: Row): Tri
    requires Read(clause).Accept?
  {
    EvalOr(BindOr(Read(clause).value, params), row)
  }

  lemma BindHoles(ks: seq<nat>, params: seq<string>)
    requires forall i :: 0 <= i < |ks| ==> 1 <= ks[i] <= |params|
    ensures BindArgs(Holes(ks), params) == Bounds(Pick(params, ks))
  {
  }

  lemma PickStraight(params: seq<string>)
    ensures forall i :: 0 <= i < |Straight(0, |params|)| ==> 1 <= Straight(0, |params|)[i] <= |params|
    ensures Pick(params, Straight(0, |params|)) == params
  {
  }

  /** The reference clause, parameters bound, is the tree of the right texts. */
  lemma BoundReference(node: QueryNode)
    ensures Read(RefClause(node)).Accept?
    ensures BindOr(Read(RefClause(node)).value, LiveParams(node))
         == ClauseTree(Build(node, Bounds(LiveParams(node)), true), true)
  {
    ClauseReads(node);
    hide *;
    var ps := LiveParams(node);
    var ks := Straight(0, |ps|);
    PickStraight(ps);
    BindHoles(ks, ps);
    BindClauseTree(node, Holes(ks), true, ps);
  }

  /** The emitted clause, parameters bound, is the tree of the texts its numbers name. */
  lemma BoundClause(node: QueryNode)
    ensures Read(Clause(node)).Accept?
    ensures forall i :: 0 <= i < |CodeNumbers(node, 0)| ==> 1 <= CodeNumbers(node, 0)[i] <= |LiveParams(node)|
    ensures BindOr(Read(Clause(node)).value, LiveParams(node))
         == ClauseTree(Build(node, Bounds(Pick(LiveParams(node), CodeNumbers(node, 0))), false), false)
  {
    ClauseReads(node);
    hide *;
    var ps := LiveParams(node);
    var ks := CodeNumbers(node, 0);
    CodeNumbersWithin(node, 0);
    BindHoles(ks, ps);
    BindClauseTree(node, Holes(ks), false, ps);
  }

  /** The reference compiler means the tree: every tree, every row. */
  lemma ReferenceMeaning(node: QueryNode, row: Row)
    ensures Read(RefClause(node)).Accept?
    ensures Answer(RefClause(node), LiveParams(node), row) == Meaning(node, row)
  {
    BoundReference(node);
    hide Build, ClauseTree, LiveParams, BindOr, Meaning, EvalOr, RefClause, Read;
    ClauseTreeMeaning(node, row);
  }

  /** The emitted text is the reference text exactly on aligned trees with bare words alone. */
  lemma TextAgreement(node: QueryNode)
    ensures Clause(node) == RefClause(node) <==> Aligned(node, 0) && WordsAlone(node)
  {
    var a, b := CodeNumbers(node, 0), Straight(0, |LiveParams(node)|);
    ClauseReads(node);
    ClauseTreeAgrees(node, Holes(a), Holes(b));
    HolesInjective(a, b);
    AlignedNumbers(node, 0);
  }

  /**
   With parameters bound, the database reads the emitted clause as it reads the
   reference clause exactly when the restarted numbers resolve and bare words
   are alone.
   */
  lemma BoundAgreement(node: QueryNode)
    ensures Read(Clause(node)).Accept? && Read(RefClause(node)).Accept?
    ensures BindOr(Read(Clause(node)).value, LiveParams(node)) == BindOr(Read(RefClause(node)).value, LiveParams(node))
       <==> Resolves(node) && WordsAlone(node)
  {
    BoundReference(node);
    BoundClause(node);
    var ps := LiveParams(node);
    var found := Pick(ps, CodeNumbers(node, 0));
    assert Resolves(node) <==> found == ps;
    hide Build, ClauseTree, LiveParams, BindOr, Clause, RefClause, Read, WordsAlone, Resolves, Pick;
    ClauseTreeAgrees(node, Bounds(found), Bounds(ps));
    BoundsInjective(found, ps);
  }

  lemma BoundsInjective(a: seq<string>, b: seq<string>)
    ensures Bounds(a) == Bounds(b) <==> a == b
  {
    if Bounds(a) == Bounds(b) {
      forall i | 0 <= i < |a| ensures a[i] == b[i] {
        assert Bounds(a)[i] == Bound(a[i]) && Bounds(b)[i] == Bound(b[i]);
      }
    }
  }

  /** Compilation preserves meaning, on every row, whenever the numbers resolve. */
  lemma CompilationMeaning(node: QueryNode, row: Row)
    requires Resolves(node) && WordsAlone(node)
    ensures Read(Clause(node)).Accept?
    ensures Answer(Clause(node), LiveParams(node), row) == Meaning(node, row)
  {
    BoundAgreement(node);
    ReferenceMeaning(node, row);
  }

  /** An aligned tree resolves. */
  lemma AlignedResolves(node: QueryNode)
    requires Aligned(node, 0)
    ensures Resolves(node)
  {
    AlignedNumbers(node, 0);
  }

  // ─── Discipline of the emitted text ───

  predicate AllHolesWithin(texts: seq<seq<SqlToken>>, n: nat) {
    forall i :: 0 <= i < |texts| ==> HolesWithin(texts[i], n)
  }

  lemma {:induction false} JoinHoles(texts: seq<seq<SqlToken>>, sep: SqlToken, n: nat)
    requires !sep.Cmp? && AllHolesWithin(texts, n)
    ensures HolesWithin(Join(texts, sep), n)
  {
    if |texts| > 1 {
      JoinHoles(texts[1..], sep, n);
    }
  }

  lemma {:induction false} WordsHoles(columns: seq<string>, arg: Arg, n: nat)
    requires arg.Hole? ==> 1 <= arg.k <= n
    ensures HolesWithin(PrintOr(WordAlternatives(columns, arg)), n)
  {
    if columns != [] {
      WordsHoles(columns[1..], arg, n);
      AtomText(WordIn(columns[0]), arg);
      assert WordAlternatives(columns, arg)[1..] == WordAlternatives(columns[1..], arg);
    }
  }

  lemma BodyHoles(term: FilterTerm, arg: Arg, n: nat)
    requires arg.Hole? ==> 1 <= arg.k <= n
    ensures HolesWithin(PrintOr(LeafBody(term, arg)), n)
  {
    hide LeafPredicate, HasParam;
    if Classify(term) == FullText {
      WordsHoles(FULL_TEXT_COLUMNS, arg, n);
    } else {
      LeafBodySingle(term, arg);
      hide LeafBody;
      AtomText(LeafPredicate(term), if HasParam(term) then arg else NoArg);
    }
  }

  lemma NegatedHoles(d: Disj, n: nat)
    requires HolesWithin(PrintOr(d), n)
    ensures HolesWithin(PrintOr([Conj([Negated(Group(d))])]), n)
  {
    GroupText(d);
    hide PrintOr;
  }

  lemma LeafHoles(term: FilterTerm, arg: Arg, n: nat)
    requires arg.Hole? ==> 1 <= arg.k <= n
    ensures HolesWithin(PrintOr(LeafCondition(term, arg)), n)
  {
    hide LeafBody, PrintOr, HolesWithin;
    BodyHoles(term, arg, n);
    NegatedHoles(LeafBody(term, arg), n);
  }

  lemma SideHoles(texts: seq<seq<SqlToken>>, n: nat)
    requires AllHolesWithin(texts, n)
    ensures HolesWithin(SideTokens(texts), n)
  {
    JoinHoles(texts, AndKw, n);
  }

  lemma FrameHoles(a: seq<SqlToken>, b: seq<SqlToken>, n: nat)
    requires HolesWithin(a, n) && HolesWithin(b, n)
    ensures HolesWithin([Open] + (a + [OrKw] + b) + [Close], n)
  {
    assert HolesWithin(a + [OrKw], n);
    assert HolesWithin(a + [OrKw] + b, n);
  }

  lemma OrHoles(l: QueryNode, r: QueryNode, base: nat, n: nat)
    requires AllHolesWithin(Texts(Emitted(l, 0)), n) && AllHolesWithin(Texts(Emitted(r, 0)), n)
    ensures AllHolesWithin(Texts(Emitted(Or(l, r), base)), n)
  {
    EmptyWhenVacuous(Or(l, r), base);
    hide Emitted, Texts, Vacuous, SideTokens, HolesWithin;
    if !Vacuous(Or(l, r)) {
      OrText(l, r, base);
      SideHoles(Texts(Emitted(l, 0)), n);
      SideHoles(Texts(Emitted(r, 0)), n);
      FrameHoles(SideTokens(Texts(Emitted(l, 0))), SideTokens(Texts(Emitted(r, 0))), n);
    }
  }

  lemma NotHoles(inner: QueryNode, base: nat, n: nat)
    requires AllHolesWithin(Texts(Emitted(inner, 0)), n)
    ensures AllHolesWithin(Texts(Emitted(Not(inner), base)), n)
  {
    EmptyWhenVacuous(Not(inner), base);
    hide Emitted, Texts, Join;
    if !Vacuous(inner) {
      NotText(inner, base);
      JoinHoles(Texts(Emitted(inner, 0)), AndKw, n);
    }
  }

  lemma FilterHoles(term: FilterTerm, base: nat, n: nat)
    requires base + |LiveParams(Filter(term))| <= n
    ensures AllHolesWithin(Texts(Emitted(Filter(term), base)), n)
  {
    hide LeafCondition;
    if !Dead(term) {
      LeafHoles(term, LeafArg(term, base), n);
    }
  }

  /** A node met with `base` parameters pushed refers to those it pushes itself or earlier ones. */
  lemma {:induction false} EmittedHoles(node: QueryNode, base: nat, n: nat)
    requires base + |LiveParams(node)| <= n
    ensures AllHolesWithin(Texts(Emitted(node, base)), n)
  {
    hide Emitted, Texts, HolesWithin;
    match node
    case Filter(term) =>
      FilterHoles(term, base, n);
    case And(l, r) =>
      EmittedHoles(l, base, n);
      EmittedHoles(r, base + |LiveParams(l)|, n);
      EmittedAnd(l, r, base);
      TextsAppend(Emitted(l, base), Emitted(r, base + |LiveParams(l)|));
    case Or(l, r) =>
      if Vacuous(node) {
        EmptyWhenVacuous(node, base);
      } else {
        EmittedHoles(l, 0, n);
        EmittedHoles(r, 0, n);
        OrHoles(l, r, base, n);
      }
    case Not(inner) =>
      EmittedHoles(inner, 0, n);
      NotHoles(inner, base, n);
  }

  const TRUE_TREE: Disj := [Conj([Atom(TrueLit, NoArg)])]

  lemma LeafIsNotTrue(term: FilterTerm, arg: Arg)
    ensures LeafCondition(term, arg) != TRUE_TREE
  {
    var c := LeafCondition(term, arg);
    WordAlternativesWf(FULL_TEXT_COLUMNS, arg);
    assert c[0].units[0] != Atom(TrueLit, NoArg);
  }

  lemma {:induction false} BuildIsNotTrue(node: QueryNode, args: seq<Arg>)
    requires |args| == |LiveParams(node)|
    ensures TRUE_TREE !in Build(node, args, false)
  {
    match node
    case Filter(term) =>
      LeafIsNotTrue(term, if args == [] then NoArg else args[0]);
    case And(l, r) =>
      BuildIsNotTrue(l, args[..|LiveParams(l)|]);
      BuildIsNotTrue(r, args[|LiveParams(l)|..]);
    case Or(l, r) =>
      if !Vacuous(node) {
        var c := Build(node, args, false)[0];
        assert c[0].units[0].Group?;
      }
    case Not(inner) =>
      if !Vacuous(node) {
        var c := Build(node, args, false)[0];
        assert c[0].units[0].Negated?;
      }
  }

  lemma GlueIsNotTrue(a: Disj, b: Disj)
    requires WfOr(a) && WfOr(b)
    ensures GlueTwo(a, b) != TRUE_TREE
  {
    var g := GlueTwo(a, b);
    assert |g[|a| - 1].units| == |a[|a| - 1].units| + |b[0].units|;
    assert WfAnd(a[|a| - 1].units) && WfAnd(b[0].units);
  }

  lemma OnlyVacuousIsTrue(node: QueryNode)
    requires !Vacuous(node)
    ensures Clause(node) != [Cmp(TrueLit, NoArg)]
  {
    var cs := Emitted(node, 0);
    EmittedWf(node, 0);
    BuildIsNotTrue(node, Holes(CodeNumbers(node, 0)));
    GlueAllWf(cs);
    if |cs| > 1 {
      GlueAllWf(cs[1..]);
      GlueIsNotTrue(cs[0], GlueAll(cs[1..]));
    }
    hide Build;
    AtomText(TrueLit, NoArg);
    ReadPrint(GlueAll(cs));
    AtomsWf(TRUE_TREE);
    ReadPrint(TRUE_TREE);
  }

  lemma ClauseHoles(node: QueryNode)
    ensures HolesWithin(Clause(node), |LiveParams(node)|)
  {
    var cs := Emitted(node, 0);
    AtomText(TrueLit, NoArg);
    if !Vacuous(node) {
      EmittedWf(node, 0);
      EmittedHoles(node, 0, |LiveParams(node)|);
      GlueAllWf(cs);
      JoinHoles(Texts(cs), AndKw, |LiveParams(node)|);
    }
  }

  /**
   On every tree: each `$k` of the clause names one of the parameters returned
   with it, parentheses balance, and the clause is `TRUE` exactly for a vacuous tree.
   */
  lemma ClauseDiscipline(node: QueryNode)
    ensures HolesWithin(Clause(node), |LiveParams(node)|)
    ensures Depth(Clause(node), 0) == 0
    ensures Clause(node) == [Cmp(TrueLit, NoArg)] <==> Vacuous(node)
  {
    ClauseHoles(node);
    PrintedOrBalances(ClauseTree(Build(node, Holes(CodeNumbers(node, 0)), false), false), 0);
    if Vacuous(node) {
      AtomText(TrueLit, NoArg);
    } else {
      OnlyVacuousIsTrue(node);
    }
  }

  // ─── The conditions are needed ───

  function Word(w: string): QueryNode {
    Filter(FilterTerm("", Default, w, false))
  }

  function Field(key: string, value: string): QueryNode {
    Filter(FilterTerm(key, Default, value, false))
  }

  lemma SharedWordTree(w: string, t: string)
    requires w != ""
    ensures var node := And(Word(w), Field("tag", t));
      && Read(Clause(node)).Accept?
      && BindOr(Read(Clause(node)).value, LiveParams(node))
      == GlueTwo(WordAlternatives(FULL_TEXT_COLUMNS, Bound(w)), [Conj([Atom(HasTag(t), NoArg)])])
  {
    var word, tag := Word(w), Field("tag", t);
    assert LiveParams(word) == [w] && LiveParams(tag) == [];
    assert CodeNumbers(word, 0) == [1] && CodeNumbers(And(word, tag), 0) == [1];
    BoundClause(And(word, tag));
    assert LiveParams(And(word, tag)) == [w];
    assert Bounds(Pick([w], [1])) == [Bound(w)];
    BuildAnd(word, tag, [Bound(w)], [], false);
    assert [Bound(w)] + [] == [Bound(w)];
    var d, e := WordAlternatives(FULL_TEXT_COLUMNS, Bound(w)), [Conj([Atom(HasTag(t), NoArg)])];
    assert Build(word, [Bound(w)], false) == [d] && Build(tag, [], false) == [e];
    assert [d] + [e] == [d, e] && [d, e][1..] == [e];
    assert GlueAll([d, e]) == GlueTwo(d, GlueAll([e]));
  }

  /**
   `w tag:t`, any word and tag: a row with the word in its banner is an answer
   whether or not it has the tag, because the AND takes in the last column only.
   */
  lemma SharedWordMisleads(w: string, t: string, row: Row)
    requires w != ""
    requires row(WordIn(FULL_TEXT_COLUMNS[0]), Bound(w)) == T && row(HasTag(t), NoArg) == F
    ensures var node := And(Word(w), Field("tag", t));
      && Aligned(node, 0)
      && Read(Clause(node)).Accept?
      && Answer(Clause(node), LiveParams(node), row) == T
      && Meaning(node, row) == F
  {
    SharedWordTree(w, t);
    hide Read, Clause, LiveParams, BindOr;
    var d := WordAlternatives(FULL_TEXT_COLUMNS, Bound(w));
    WordAlternativesWf(FULL_TEXT_COLUMNS, Bound(w));
    var g := GlueTwo(d, [Conj([Atom(HasTag(t), NoArg)])]);
    assert g == [d[0]] + g[1..];
    EvalOrAppend([d[0]], g[1..], row);
    EvalOne(Atom(WordIn(FULL_TEXT_COLUMNS[0]), Bound(w)), row);
    assert TermMeaning(Field("tag", t).term, row) == F;
  }

  lemma CountryTree(a: string, b: string)
    ensures var l, r := Field("country", a), Field("country", b);
      && LiveParams(l) == [Upper(a)] && LiveParams(r) == [Upper(b)]
      && CodeNumbers(l, 0) == [1] && CodeNumbers(r, 0) == [1]
      && LiveParams(Or(l, r)) == [Upper(a), Upper(b)] && CodeNumbers(Or(l, r), 0) == [1, 1]
      && !Vacuous(Or(l, r))
  {
    hide Upper;
    var l, r := Field("country", a), Field("country", b);
    assert !Vacuous(l) && !Vacuous(r);
    assert LiveParams(Or(l, r)) == LiveParams(l) + LiveParams(r);
    OrNumbers(l, r, 0);
  }

  lemma CountryBuild(a: string, arg: Arg)
    ensures LiveParams(Field("country", a)) == [Upper(a)]
    ensures Build(Field("country", a), [arg], false) == [[Conj([Atom(CountryIs, arg)])]]
  {
    hide Upper;
  }

  lemma MisalignedTree(a: string, b: string)
    ensures var node := Or(Field("country", a), Field("country", b));
      var c := [Conj([Atom(CountryIs, Bound(Upper(a)))])];
      && Read(Clause(node)).Accept?
      && BindOr(Read(Clause(node)).value, LiveParams(node)) == [Conj([Group(c + c)])]
  {
    var l, r := Field("country", a), Field("country", b);
    var arg := Bound(Upper(a));
    CountryTree(a, b);
    CountryBuild(a, arg);
    CountryBuild(b, arg);
    BoundClause(Or(l, r));
    hide Build, LiveParams, CodeNumbers, Clause, Read, BindOr, Upper, Vacuous;
    assert Bounds(Pick([Upper(a), Upper(b)], [1, 1])) == [arg, arg];
    BuildOr(l, r, [arg], [arg], false);
    assert [arg] + [arg] == [arg, arg];
  }

  /**
   `country:a OR country:b`, any two different countries: a row of the second
   is not found, because both sides compare with `$1`.
   */
  lemma MisalignedMisleads(a: string, b: string, row: Row)
    requires row(CountryIs, Bound(Upper(a))) == F && row(CountryIs, Bound(Upper(b))) == T
    ensures var node := Or(Field("country", a), Field("country", b));
      && WordsAlone(node)
      && Read(Clause(node)).Accept?
      && Answer(Clause(node), LiveParams(node), row) == F
      && Meaning(node, row) == T
  {
    MisalignedTree(a, b);
    var l, r := Field("country", a), Field("country", b);
    assert WordsAlone(l) && WordsAlone(r);
    assert Chains(Or(l, r)) == [false];
    assert Meaning(Or(l, r), row) == Or3(Meaning(l, row), Meaning(r, row));
    hide Read, Clause, LiveParams, BindOr;
    var c := [Conj([Atom(CountryIs, Bound(Upper(a)))])];
    EvalOne(Group(c + c), row);
    EvalOrAppend(c, c, row);
    EvalOne(Atom(CountryIs, Bound(Upper(a))), row);
    assert Meaning(r, row) == TermMeaning(r.term, row) == T;
  }
}
