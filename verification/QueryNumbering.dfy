/**
 The reference that differs from the code in one thing: it renumbers, by the
 offset of the parameters already pushed, the placeholders of a merged side.
 */
module QueryNumbering {
  import opened Query
  import opened SqlText
  import opened QueryCompiler
  import opened QueryAgreement

  function Shift(ks: seq<nat>, off: nat): (r: seq<nat>)
    ensures |r| == |ks|
  {
    seq(|ks|, i requires 0 <= i < |ks| => ks[i] + off)
  }

  /** `CodeNumbers`, with each merged side shifted by what was pushed before it. */
  function OffsetNumbers(node: QueryNode, base: nat): (ks: seq<nat>)
    ensures |ks| == |LiveParams(node)|
  {
    match node
    case Filter(term) => if !Dead(term) && HasParam(term) then [base + 1] else []
    case And(l, r) =>
      var left := OffsetNumbers(l, base);
      left + OffsetNumbers(r, base + |left|)
    case Or(l, r) =>
      if Vacuous(node) then []
      else
        var left := OffsetNumbers(l, 0);
        Shift(left, base) + Shift(OffsetNumbers(r, 0), base + |left|)
    case Not(inner) => Shift(OffsetNumbers(inner, 0), base)
  }

  lemma ShiftStraight(n: nat, off: nat)
    ensures Shift(Straight(0, n), off) == Straight(off, n)
  {
  }

  lemma OffsetOr(l: QueryNode, r: QueryNode, base: nat)
    requires !Vacuous(Or(l, r))
    requires OffsetNumbers(l, 0) == Straight(0, |LiveParams(l)|)
    requires OffsetNumbers(r, 0) == Straight(0, |LiveParams(r)|)
    ensures OffsetNumbers(Or(l, r), base) == Straight(base, |LiveParams(Or(l, r))|)
  {
    hide Straight, Shift;
    var m, n := |LiveParams(l)|, |LiveParams(r)|;
    ShiftStraight(m, base);
    ShiftStraight(n, base + m);
    StraightSplit(base, m, n);
  }

  /** Renumbering by offset counts straight on. */
  lemma {:induction false} OffsetIsStraight(node: QueryNode, base: nat)
    ensures OffsetNumbers(node, base) == Straight(base, |LiveParams(node)|)
  {
    match node
    case Filter(term) =>
    case And(l, r) =>
      hide Straight;
      OffsetIsStraight(l, base);
      OffsetIsStraight(r, base + |LiveParams(l)|);
      StraightSplit(base, |LiveParams(l)|, |LiveParams(r)|);
    case Or(l, r) =>
      if !Vacuous(node) {
        hide Straight, OffsetNumbers;
        OffsetIsStraight(l, 0);
        OffsetIsStraight(r, 0);
        OffsetOr(l, r, base);
      }
    case Not(inner) =>
      hide Straight, Shift;
      OffsetIsStraight(inner, 0);
      ShiftStraight(|LiveParams(inner)|, base);
  }

  function OffsetClause(node: QueryNode): seq<SqlToken> {
    PrintOr(ClauseTree(Build(node, Holes(OffsetNumbers(node, 0)), false), false))
  }

  // ─── The placeholders of a text, in order ───

  function HoleList(ts: seq<SqlToken>): seq<nat> {
    if ts == [] then []
    else (if ts[0].Cmp? && ts[0].arg.Hole? then [ts[0].arg.k] else []) + HoleList(ts[1..])
  }

  lemma {:induction false} HoleListAppend(a: seq<SqlToken>, b: seq<SqlToken>)
    ensures HoleList(a + b) == HoleList(a) + HoleList(b)
  {
    if a == [] {
      assert a + b == b;
    } else {
      assert (a + b)[1..] == a[1..] + b;
      HoleListAppend(a[1..], b);
    }
  }

  lemma HoleListOne(t: SqlToken)
    ensures HoleList([t]) == if t.Cmp? && t.arg.Hole? then [t.arg.k] else []
  {
  }

  lemma HoleListFrame(open: seq<SqlToken>, ts: seq<SqlToken>, close: seq<SqlToken>)
    requires HoleList(open) == [] && HoleList(close) == []
    ensures HoleList(open + ts + close) == HoleList(ts)
    ensures HoleList(open + (ts + close)) == HoleList(ts)
  {
    hide HoleList;
    HoleListAppend(open + ts, close);
    HoleListAppend(open, ts);
    assert open + (ts + close) == open + ts + close;
    assert [] + HoleList(ts) == HoleList(ts) == HoleList(ts) + [];
  }

  lemma HoleListBetween(a: seq<SqlToken>, sep: SqlToken, b: seq<SqlToken>)
    requires sep == AndKw || sep == OrKw
    ensures HoleList(a + [sep] + b) == HoleList(a) + HoleList(b)
  {
    HoleListOne(sep);
    hide HoleList;
    HoleListAppend(a + [sep], b);
    HoleListAppend(a, [sep]);
    assert HoleList(a) + [] == HoleList(a);
  }

  function AllHoles(texts: seq<seq<SqlToken>>): seq<nat> {
    if texts == [] then [] else HoleList(texts[0]) + AllHoles(texts[1..])
  }

  lemma {:induction false} AllHolesAppend(a: seq<seq<SqlToken>>, b: seq<seq<SqlToken>>)
    ensures AllHoles(a + b) == AllHoles(a) + AllHoles(b)
  {
    if a == [] {
      assert a + b == b;
    } else {
      assert (a + b)[1..] == a[1..] + b;
      AllHolesAppend(a[1..], b);
    }
  }

  lemma {:induction false} HoleListJoin(texts: seq<seq<SqlToken>>)
    ensures HoleList(Join(texts, AndKw)) == AllHoles(texts)
  {
    if |texts| == 1 {
      assert AllHoles(texts[1..]) == [];
    } else if texts != [] {
      HoleListJoin(texts[1..]);
      HoleListBetween(texts[0], AndKw, Join(texts[1..], AndKw));
      hide HoleList;
    }
  }

  /** One placeholder as often as the columns are compared with it. */
  function Repeat(k: nat, n: nat): seq<nat> {
    if n == 0 then [] else [k] + Repeat(k, n - 1)
  }

  /** Each leaf's placeholder as often as its text shows it. */
  function Spread(node: QueryNode, ks: seq<nat>): seq<nat>
    requires |ks| == |LiveParams(node)|
  {
    match node
    case Filter(term) =>
      if ks == [] then [] else Repeat(ks[0], if Classify(term) == FullText then |FULL_TEXT_COLUMNS| else 1)
    case And(l, r) => Spread(l, ks[..|LiveParams(l)|]) + Spread(r, ks[|LiveParams(l)|..])
    case Or(l, r) =>
      if Vacuous(node) then []
      else Spread(l, ks[..|LiveParams(l)|]) + Spread(r, ks[|LiveParams(l)|..])
    case Not(inner) => Spread(inner, ks)
  }

  lemma {:induction false} RepeatLength(k: nat, n: nat)
    ensures |Repeat(k, n)| == n && (n > 0 ==> Repeat(k, n)[0] == k)
  {
    if n > 0 {
      RepeatLength(k, n - 1);
    }
  }

  lemma AppendInjective(p: seq<nat>, q: seq<nat>, p': seq<nat>, q': seq<nat>)
    requires |p| == |p'| && p + q == p' + q'
    ensures p == p' && q == q'
  {
    assert p == (p + q)[..|p|] && p' == (p' + q')[..|p|];
    assert q == (p + q)[|p|..] && q' == (p' + q')[|p|..];
  }

  /** The numbers can be told from the text. */
  lemma {:induction false} SpreadInjective(node: QueryNode, a: seq<nat>, b: seq<nat>)
    requires |a| == |b| == |LiveParams(node)|
    ensures |Spread(node, a)| == |Spread(node, b)|
    ensures Spread(node, a) == Spread(node, b) ==> a == b
  {
    match node
    case Filter(term) =>
      if a != [] {
        var n := if Classify(term) == FullText then |FULL_TEXT_COLUMNS| else 1;
        RepeatLength(a[0], n);
        RepeatLength(b[0], n);
      }
    case Not(inner) => SpreadInjective(inner, a, b);
    case _ =>
      var l, r := node.left, node.right;
      if node.And? || !Vacuous(node) {
        var n := |LiveParams(l)|;
        SpreadInjective(l, a[..n], b[..n]);
        SpreadInjective(r, a[n..], b[n..]);
        if Spread(node, a) == Spread(node, b) {
          AppendInjective(Spread(l, a[..n]), Spread(r, a[n..]), Spread(l, b[..n]), Spread(r, b[n..]));
          assert a == a[..n] + a[n..] && b == b[..n] + b[n..];
        }
      }
  }

  // ─── The text shows them ───

  lemma HolesSplit(ks: seq<nat>, n: nat)
    requires n <= |ks|
    ensures Holes(ks)[..n] == Holes(ks[..n]) && Holes(ks)[n..] == Holes(ks[n..])
  {
  }

  lemma {:induction false} WordsShow(columns: seq<string>, k: nat)
    ensures HoleList(PrintOr(WordAlternatives(columns, Hole(k)))) == Repeat(k, |columns|)
  {
    if columns != [] {
      var one, rest := [Conj([Atom(WordIn(columns[0]), Hole(k))])], WordAlternatives(columns[1..], Hole(k));
      WordsShow(columns[1..], k);
      AtomText(WordIn(columns[0]), Hole(k));
      HoleListOne(Cmp(WordIn(columns[0]), Hole(k)));
      if rest != [] {
        PrintOrAppend(one, rest);
        HoleListBetween(PrintOr(one), OrKw, PrintOr(rest));
      } else {
        assert one + rest == one;
      }
    }
  }

  lemma LeafBodyShows(term: FilterTerm, arg: Arg)
    requires arg == NoArg || (arg.Hole? && HasParam(term))
    requires HasParam(term) ==> arg.Hole?
    ensures HoleList(PrintOr(LeafBody(term, arg))) ==
      if arg == NoArg then [] else Repeat(arg.k, if Classify(term) == FullText then |FULL_TEXT_COLUMNS| else 1)
  {
    var pred := match Classify(term)
      case Tag => HasTag(term.value)
      case Port => if HasParam(term) then PortIs else FalseLit
      case Country => CountryIs
      case FullText => TrueLit
      case JsonContains => HasField(term.key, term.value)
      case JsonText => TextOp(term.key, term.op);
    if Classify(term) == FullText {
      WordsShow(FULL_TEXT_COLUMNS, arg.k);
    } else {
      AtomText(pred, arg);
      HoleListOne(Cmp(pred, arg));
      if arg.Hole? {
        assert Repeat(arg.k, 1) == [arg.k] + Repeat(arg.k, 0);
      }
    }
  }

  lemma LeafShows(term: FilterTerm, arg: Arg)
    requires arg == NoArg || (arg.Hole? && HasParam(term))
    requires HasParam(term) ==> arg.Hole?
    ensures HoleList(PrintOr(LeafCondition(term, arg))) ==
      if arg == NoArg then [] else Repeat(arg.k, if Classify(term) == FullText then |FULL_TEXT_COLUMNS| else 1)
  {
    LeafBodyShows(term, arg);
    hide LeafBody, Repeat, Classify, HasParam;
    NegatedShows(LeafBody(term, arg));
  }

  lemma NegatedShows(d: Disj)
    ensures HoleList(PrintOr([Conj([Negated(Group(d))])])) == HoleList(PrintOr(d))
  {
    HoleListOne(NotKw);
    HoleListOne(Open);
    HoleListOne(Close);
    hide HoleList;
    GroupText(d);
    HoleListFrame([Open], PrintOr(d), [Close]);
    HoleListAppend([NotKw], [Open] + PrintOr(d) + [Close]);
    assert [NotKw] + ([Open] + PrintOr(d) + [Close]) == [NotKw] + [Open] + PrintOr(d) + [Close];
  }

  lemma GlueShows(cs: seq<Disj>)
    requires cs != [] && AllWf(cs)
    ensures HoleList(PrintOr(Glue(cs, false))) == AllHoles(Texts(cs))
    ensures HoleList(PrintOr(Side(cs, false))) == AllHoles(Texts(cs))
  {
    GlueAllWf(cs);
    HoleListJoin(Texts(cs));
    hide AllHoles, Join;
    GroupText(Glue(cs, false));
    HoleListOne(Open);
    HoleListOne(Close);
    HoleListFrame([Open], PrintOr(Glue(cs, false)), [Close]);
  }

  lemma OrShows(a: seq<Disj>, b: seq<Disj>)
    requires a != [] && b != [] && AllWf(a) && AllWf(b)
    ensures AllHoles(Texts([OrCondition(a, b, false)])) == AllHoles(Texts(a)) + AllHoles(Texts(b))
  {
    var x, y := Side(a, false), Side(b, false);
    GlueShows(a);
    GlueShows(b);
    HoleListOne(Open);
    HoleListOne(Close);
    hide HoleList, AllHoles, Side;
    PrintOrAppend(x, y);
    GroupText(x + y);
    HoleListBetween(PrintOr(x), OrKw, PrintOr(y));
    HoleListFrame([Open], PrintOr(x + y), [Close]);
    AllHolesOne(OrCondition(a, b, false));
  }

  lemma AllHolesOne(c: Disj)
    ensures AllHoles(Texts([c])) == HoleList(PrintOr(c))
  {
    assert Texts([c])[1..] == [];
  }

  lemma NotShows(cs: seq<Disj>)
    requires cs != [] && AllWf(cs)
    ensures AllHoles(Texts([NotCondition(cs, false)])) == AllHoles(Texts(cs))
  {
    GlueShows(cs);
    NegatedShows(Glue(cs, false));
    AllHolesOne(NotCondition(cs, false));
  }

  lemma NothingShows(node: QueryNode, ks: seq<nat>)
    requires |ks| == |LiveParams(node)| && Vacuous(node)
    ensures Spread(node, ks) == []
  {
  }

  lemma {:induction false} BuildShows(node: QueryNode, ks: seq<nat>)
    requires |ks| == |LiveParams(node)|
    ensures AllHoles(Texts(Build(node, Holes(ks), false))) == Spread(node, ks)
  {
    hide OrCondition, NotCondition, LeafCondition, HoleList, AllHoles;
    BuildShaped(node, Holes(ks), false);
    match node
    case Filter(term) =>
      if Dead(term) {
        AllHolesNone();
      } else {
        var arg := if ks == [] then NoArg else Hole(ks[0]);
        LeafShows(term, arg);
        AllHolesOne(LeafCondition(term, arg));
      }
    case And(l, r) =>
      var n := |LiveParams(l)|;
      HolesSplit(ks, n);
      BuildShows(l, ks[..n]);
      BuildShows(r, ks[n..]);
      var a, b := Build(l, Holes(ks[..n]), false), Build(r, Holes(ks[n..]), false);
      TextsAppend(a, b);
      AllHolesAppend(Texts(a), Texts(b));
    case Or(l, r) =>
      if Vacuous(node) {
        AllHolesNone();
      } else {
        var n := |LiveParams(l)|;
        HolesSplit(ks, n);
        BuildShows(l, ks[..n]);
        BuildShows(r, ks[n..]);
        BuildShaped(l, Holes(ks[..n]), false);
        BuildShaped(r, Holes(ks[n..]), false);
        OrShows(Build(l, Holes(ks[..n]), false), Build(r, Holes(ks[n..]), false));
      }
    case Not(inner) =>
      if Vacuous(node) {
        AllHolesNone();
        NothingShows(inner, ks);
      } else {
        BuildShows(inner, ks);
        BuildShaped(inner, Holes(ks), false);
        NotShows(Build(inner, Holes(ks), false));
      }
  }

  lemma AllHolesNone()
    ensures AllHoles(Texts([])) == []
  {
  }

  lemma ClauseShows(node: QueryNode, ks: seq<nat>)
    requires |ks| == |LiveParams(node)|
    ensures HoleList(PrintOr(ClauseTree(Build(node, Holes(ks), false), false))) == Spread(node, ks)
  {
    BuildShows(node, ks);
    BuildShaped(node, Holes(ks), false);
    var cs := Build(node, Holes(ks), false);
    if cs == [] {
      NothingShows(node, ks);
      AtomText(TrueLit, NoArg);
      HoleListOne(Cmp(TrueLit, NoArg));
    } else {
      GlueShows(cs);
    }
  }

  /** The emitted text is that of the compiler that renumbers by offset exactly on aligned trees. */
  lemma RenumberingAgreement(node: QueryNode)
    ensures Clause(node) == OffsetClause(node) <==> Aligned(node, 0)
  {
    var a, b := CodeNumbers(node, 0), OffsetNumbers(node, 0);
    AlignedNumbers(node, 0);
    OffsetIsStraight(node, 0);
    ClauseShows(node, a);
    ClauseShows(node, b);
    SpreadInjective(node, a, b);
  }
}
