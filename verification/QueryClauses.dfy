/**
 The WHERE clause of every tree, said by the query alone: what each kind of
 filter emits, by its key and operator, and what NOT, OR and AND make of the
 clauses of their sides.
 */
module QueryClauses {
  import opened Query
  import opened Text
  import opened SqlText
  import opened QueryCompiler

  // ─── Filters ───

  /** The clause of a single filter and the parameters returned with it. */
  predicate Emits(term: FilterTerm, clause: seq<SqlToken>, params: seq<string>) {
    && Clause(Filter(term)) == (if term.negate then [NotKw, Open] + clause + [Close] else clause)
    && LiveParams(Filter(term)) == params
  }

  lemma EmitsLeaf(term: FilterTerm)
    requires !Dead(term)
    ensures Emits(term, PrintOr(LeafBody(term, LeafArg(term, 0))), if HasParam(term) then [ParamText(term)] else [])
  {
    hide LeafBody, HasParam, ParamText;
    GroupText(LeafBody(term, LeafArg(term, 0)));
    assert Holes(CodeNumbers(Filter(term), 0)) == if HasParam(term) then [Hole(1)] else [];
  }

  /** `key:value` asks for containment; `key.op:value` compares the text of the key by that operator. */
  lemma FieldClause(term: FilterTerm)
    requires term.key != "" && term.key != "tag" && term.key != "port" && term.key != "country"
    ensures term.op == Default ==> Emits(term, [Cmp(HasField(term.key, term.value), NoArg)], [])
    ensures term.op != Default ==> Emits(term, [Cmp(TextOp(term.key, term.op), Hole(1))], [term.value])
  {
    EmitsLeaf(term);
    AtomText(HasField(term.key, term.value), NoArg);
    AtomText(TextOp(term.key, term.op), Hole(1));
  }

  /** The three keys with a meaning of their own, whatever the operator. */
  lemma TagClause(term: FilterTerm)
    requires term.key == "tag"
    ensures Emits(term, [Cmp(HasTag(term.value), NoArg)], [])
  {
    EmitsLeaf(term);
    AtomText(HasTag(term.value), NoArg);
  }

  lemma PortClause(term: FilterTerm)
    requires term.key == "port"
    ensures match ParseU16(term.value)
      case Some(port) => Emits(term, [Cmp(PortIs, Hole(1))], [Show(port)])
      case None => Emits(term, [Cmp(FalseLit, NoArg)], [])
  {
    EmitsLeaf(term);
    AtomText(PortIs, Hole(1));
    AtomText(FalseLit, NoArg);
  }

  lemma CountryClause(term: FilterTerm)
    requires term.key == "country"
    ensures Emits(term, [Cmp(CountryIs, Hole(1))], [Upper(term.value)])
  {
    EmitsLeaf(term);
    AtomText(CountryIs, Hole(1));
  }

  function InColumn(column: string): SqlToken {
    Cmp(WordIn(column), Hole(1))
  }

  /** A bare word is looked for in six columns; without a word there is nothing to look for. */
  lemma WordClause(term: FilterTerm)
    requires term.key == ""
    ensures term.value != "" ==> Emits(term,
      [InColumn("data->>'banner'"), OrKw, InColumn("data->'http'->>'title'"), OrKw,
       InColumn("data->'http'->>'server'"), OrKw, InColumn("data->>'product'"), OrKw,
       InColumn("data->>'version'"), OrKw, InColumn("data->>'kind'")], [term.value])
    ensures term.value == "" ==> Clause(Filter(term)) == [Cmp(TrueLit, NoArg)] && LiveParams(Filter(term)) == []
  {
    if term.value == "" {
      AtomText(TrueLit, NoArg);
    } else {
      EmitsLeaf(term);
      SixColumns(FULL_TEXT_COLUMNS);
    }
  }

  lemma WordsText(columns: seq<string>)
    requires |columns| > 1
    ensures PrintOr(WordAlternatives(columns, Hole(1)))
         == [InColumn(columns[0]), OrKw] + PrintOr(WordAlternatives(columns[1..], Hole(1)))
  {
    AtomText(WordIn(columns[0]), Hole(1));
  }

  lemma SixColumns(c: seq<string>)
    requires |c| == 6
    ensures PrintOr(WordAlternatives(c, Hole(1)))
         == [InColumn(c[0]), OrKw, InColumn(c[1]), OrKw, InColumn(c[2]), OrKw,
             InColumn(c[3]), OrKw, InColumn(c[4]), OrKw, InColumn(c[5])]
  {
    hide PrintOr, WordAlternatives;
    WordsText(c);
    WordsText(c[1..]);
    WordsText(c[2..]);
    WordsText(c[3..]);
    WordsText(c[4..]);
    assert c[1..][1..] == c[2..] && c[2..][1..] == c[3..] && c[3..][1..] == c[4..] && c[4..][1..] == [c[5]];
    LastColumn(c[5]);
  }

  lemma LastColumn(column: string)
    ensures PrintOr(WordAlternatives([column], Hole(1))) == [InColumn(column)]
  {
    AtomText(WordIn(column), Hole(1));
  }

  // ─── NOT and OR ───

  /** How many conditions a tree puts into the vector it is given. */
  function Conditions(node: QueryNode): nat {
    match node
    case Filter(term) => if term.key == "" && term.value == "" then 0 else 1
    case And(l, r) => Conditions(l) + Conditions(r)
    case Or(l, r) => if Conditions(l) == 0 || Conditions(r) == 0 then 0 else 1
    case Not(inner) => if Conditions(inner) == 0 then 0 else 1
  }

  lemma {:induction false} VacuousHasNone(node: QueryNode)
    ensures Conditions(node) == 0 <==> Vacuous(node)
  {
    match node
    case Filter(_) =>
    case And(l, r) => VacuousHasNone(l); VacuousHasNone(r);
    case Or(l, r) => VacuousHasNone(l); VacuousHasNone(r);
    case Not(inner) => VacuousHasNone(inner);
  }

  lemma {:induction false} ConditionsCounted(node: QueryNode, base: nat)
    ensures |Emitted(node, base)| == Conditions(node)
  {
    match node
    case Filter(_) =>
    case And(l, r) =>
      EmittedAnd(l, r, base);
      ConditionsCounted(l, base);
      ConditionsCounted(r, base + |LiveParams(l)|);
    case Or(l, r) =>
      VacuousHasNone(node);
      if !Vacuous(node) {
        EmittedOr(l, r, base);
      }
    case Not(inner) =>
      VacuousHasNone(node);
  }

  lemma ClauseIsJoined(node: QueryNode)
    ensures Clause(node) ==
      if Conditions(node) == 0 then [Cmp(TrueLit, NoArg)] else Join(Texts(Emitted(node, 0)), AndKw)
    ensures |Texts(Emitted(node, 0))| == Conditions(node)
  {
    ConditionsCounted(node, 0);
    EmittedWf(node, 0);
    AtomText(TrueLit, NoArg);
    hide PrintOr;
    if Conditions(node) > 0 {
      GlueAllWf(Emitted(node, 0));
    }
  }

  /** NOT puts the clause of its body in parentheses, and asks nothing of a body that asks nothing. */
  lemma NotClause(inner: QueryNode)
    ensures Clause(Not(inner)) ==
      if Conditions(inner) == 0 then [Cmp(TrueLit, NoArg)] else [NotKw, Open] + Clause(inner) + [Close]
    ensures LiveParams(Not(inner)) == LiveParams(inner)
  {
    ClauseIsJoined(inner);
    ClauseIsJoined(Not(inner));
    VacuousHasNone(inner);
    hide Clause, Texts, Emitted;
    if Conditions(inner) > 0 {
      NotText(inner, 0);
    }
  }

  /** A side of an OR: in parentheses unless it is one condition. */
  function SideClause(node: QueryNode): seq<SqlToken> {
    if Conditions(node) == 1 then Clause(node) else [Open] + Clause(node) + [Close]
  }

  /** OR joins the clauses of its sides, and asks nothing if either side asks nothing; its parameters go with it. */
  lemma OrClause(l: QueryNode, r: QueryNode)
    ensures Conditions(l) == 0 || Conditions(r) == 0 ==>
      Clause(Or(l, r)) == [Cmp(TrueLit, NoArg)] && LiveParams(Or(l, r)) == []
    ensures Conditions(l) > 0 && Conditions(r) > 0 ==>
      && Clause(Or(l, r)) == [Open] + (SideClause(l) + [OrKw] + SideClause(r)) + [Close]
      && LiveParams(Or(l, r)) == LiveParams(l) + LiveParams(r)
  {
    ClauseIsJoined(l);
    ClauseIsJoined(r);
    ClauseIsJoined(Or(l, r));
    VacuousHasNone(l);
    VacuousHasNone(r);
    hide Clause, Texts, Emitted;
    if Conditions(l) > 0 && Conditions(r) > 0 {
      OrText(l, r, 0);
    }
  }

  // ─── AND ───

  function DepthAfter(t: SqlToken, depth: int): int {
    if t == Open then depth + 1 else if t == Close then depth - 1 else depth
  }

  function CountedOn(t: SqlToken, depth: int, k: nat): SqlToken {
    if depth == 0 && t.Cmp? && t.arg.Hole? then Cmp(t.pred, Hole(t.arg.k + k)) else t
  }

  /** The placeholders outside all parentheses, counted on by `k`. */
  function CountOn(ts: seq<SqlToken>, depth: int, k: nat): seq<SqlToken> {
    if ts == [] then [] else [CountedOn(ts[0], depth, k)] + CountOn(ts[1..], DepthAfter(ts[0], depth), k)
  }

  lemma DepthStep(ts: seq<SqlToken>, depth: int)
    requires ts != [] && Depth(ts, depth) >= 0
    ensures Depth(ts, depth) == Depth(ts[1..], DepthAfter(ts[0], depth))
  {
  }

  lemma {:induction false} CountOnAppend(a: seq<SqlToken>, b: seq<SqlToken>, depth: int, k: nat)
    requires Depth(a, depth) >= 0
    ensures CountOn(a + b, depth, k) == CountOn(a, depth, k) + CountOn(b, Depth(a, depth), k)
  {
    if a == [] {
      assert a + b == b;
    } else {
      assert (a + b)[1..] == a[1..] + b;
      DepthStep(a, depth);
      hide DepthAfter, CountedOn, Depth;
      CountOnAppend(a[1..], b, DepthAfter(a[0], depth), k);
    }
  }

  lemma {:induction false} CountOnTwice(ts: seq<SqlToken>, depth: int, j: nat, k: nat)
    ensures CountOn(CountOn(ts, depth, j), depth, k) == CountOn(ts, depth, j + k)
  {
    if ts != [] {
      var once := CountOn(ts, depth, j);
      assert once[1..] == CountOn(ts[1..], DepthAfter(ts[0], depth), j);
      CountOnTwice(ts[1..], DepthAfter(ts[0], depth), j, k);
    }
  }

  /** Nothing inside parentheses is counted on. */
  lemma {:induction false} UnitStays(u: Unit, depth: nat, k: nat)
    requires depth > 0
    ensures CountOn(PrintUnit(u), depth, k) == PrintUnit(u)
    decreases u, 0
  {
    match u
    case Atom(_, _) =>
    case Group(alts) =>
      OrStays(alts, depth + 1, k);
      PrintedOrBalances(alts, depth + 1);
      GroupCounts(PrintOr(alts), depth, k);
    case Negated(v) =>
      UnitStays(v, depth, k);
      assert PrintUnit(u)[1..] == PrintUnit(v);
  }

  lemma GroupCounts(inner: seq<SqlToken>, depth: nat, k: nat)
    requires Depth(inner, depth + 1) == depth + 1
    ensures CountOn([Open] + inner + [Close], depth, k) == [Open] + CountOn(inner, depth + 1, k) + [Close]
  {
    assert ([Open] + inner + [Close])[1..] == inner + [Close];
    CountOnAppend(inner, [Close], depth + 1, k);
    assert CountOn([Close], depth + 1, k) == [Close];
  }

  lemma {:induction false} AndStays(us: seq<Unit>, depth: nat, k: nat)
    requires depth > 0
    ensures CountOn(PrintAnd(us), depth, k) == PrintAnd(us)
    decreases us, 0
  {
    if us == [] {
    } else if |us| == 1 {
      UnitStays(us[0], depth, k);
    } else {
      UnitStays(us[0], depth, k);
      PrintedUnitBalances(us[0], depth);
      AndStays(us[1..], depth, k);
      PairCounts(PrintUnit(us[0]), AndKw, PrintAnd(us[1..]), depth, k);
    }
  }

  lemma {:induction false} OrStays(d: Disj, depth: nat, k: nat)
    requires depth > 0
    ensures CountOn(PrintOr(d), depth, k) == PrintOr(d)
    decreases d, 0
  {
    if d == [] {
    } else if |d| == 1 {
      AndStays(d[0].units, depth, k);
    } else {
      AndStays(d[0].units, depth, k);
      PrintedAndBalances(d[0].units, depth);
      OrStays(d[1..], depth, k);
      PairCounts(PrintAnd(d[0].units), OrKw, PrintOr(d[1..]), depth, k);
    }
  }

  lemma PairCounts(a: seq<SqlToken>, word: SqlToken, b: seq<SqlToken>, depth: nat, k: nat)
    requires Depth(a, depth) == depth && (word == AndKw || word == OrKw)
    ensures CountOn(a + [word] + b, depth, k) == CountOn(a, depth, k) + [word] + CountOn(b, depth, k)
  {
    assert a + [word] + b == a + ([word] + b);
    CountOnAppend(a, [word] + b, depth, k);
    assert ([word] + b)[1..] == b;
  }

  // What a tree emits after `base` parameters: what it emits first of all, counted on.

  predicate NoneNegated(node: QueryNode) {
    match node
    case Filter(term) => !term.negate
    case And(l, r) => NoneNegated(l) && NoneNegated(r)
    case Or(l, r) => NoneNegated(l) && NoneNegated(r)
    case Not(inner) => NoneNegated(inner)
  }

  function AllCountOn(texts: seq<seq<SqlToken>>, k: nat): (r: seq<seq<SqlToken>>)
    ensures |r| == |texts|
  {
    seq(|texts|, i requires 0 <= i < |texts| => CountOn(texts[i], 0, k))
  }

  lemma GroupedStays(d: Disj, k: nat)
    ensures CountOn([Open] + PrintOr(d) + [Close], 0, k) == [Open] + PrintOr(d) + [Close]
    ensures CountOn([NotKw] + ([Open] + PrintOr(d) + [Close]), 0, k) == [NotKw] + ([Open] + PrintOr(d) + [Close])
  {
    OrStays(d, 1, k);
    PrintedOrBalances(d, 1);
    GroupCounts(PrintOr(d), 0, k);
    assert ([NotKw] + ([Open] + PrintOr(d) + [Close]))[1..] == [Open] + PrintOr(d) + [Close];
  }

  lemma {:induction false} WordsCountOn(columns: seq<string>, base: nat)
    ensures PrintOr(WordAlternatives(columns, Hole(base + 1)))
         == CountOn(PrintOr(WordAlternatives(columns, Hole(1))), 0, base)
  {
    if columns != [] {
      WordsCountOn(columns[1..], base);
      AtomText(WordIn(columns[0]), Hole(1));
      AtomText(WordIn(columns[0]), Hole(base + 1));
      PairCounts([Cmp(WordIn(columns[0]), Hole(1))], OrKw,
                 PrintOr(WordAlternatives(columns[1..], Hole(1))), 0, base);
    }
  }

  lemma LeafCountsOn(term: FilterTerm, base: nat)
    requires !Dead(term) && !term.negate
    ensures Texts(Emitted(Filter(term), base)) == AllCountOn(Texts(Emitted(Filter(term), 0)), base)
  {
    LeafEmitted(term, base);
    LeafEmitted(term, 0);
    LeafTextCountsOn(term, base);
    hide PrintOr, LeafBody, Emitted, LeafArg, CountOn;
    var text := PrintOr(LeafBody(term, LeafArg(term, 0)));
    assert AllCountOn([text], base) == [CountOn(text, 0, base)];
  }

  lemma LeafTextCountsOn(term: FilterTerm, base: nat)
    ensures PrintOr(LeafBody(term, LeafArg(term, base))) == CountOn(PrintOr(LeafBody(term, LeafArg(term, 0))), 0, base)
  {
    if Classify(term) == FullText {
      hide PrintOr;
      WordsCountOn(FULL_TEXT_COLUMNS, base);
    } else {
      LeafBodySingle(term, LeafArg(term, base));
      LeafBodySingle(term, LeafArg(term, 0));
      AtomText(LeafPredicate(term), LeafArg(term, base));
      AtomText(LeafPredicate(term), LeafArg(term, 0));
      hide PrintOr, LeafBody, LeafPredicate;
    }
  }

  lemma LeafEmitted(term: FilterTerm, base: nat)
    requires !Dead(term) && !term.negate
    ensures Texts(Emitted(Filter(term), base)) == [PrintOr(LeafBody(term, LeafArg(term, base)))]
  {
    hide LeafBody, HasParam, PrintOr;
    assert Holes(CodeNumbers(Filter(term), base)) == if HasParam(term) then [Hole(base + 1)] else [];
  }

  lemma {:induction false} EmittedCountsOn(node: QueryNode, base: nat)
    requires NoneNegated(node)
    ensures Texts(Emitted(node, base)) == AllCountOn(Texts(Emitted(node, 0)), base)
  {
    hide PrintOr, CountOn, Emitted;
    match node
    case Filter(term) =>
      if !Dead(term) {
        LeafCountsOn(term, base);
      } else {
        EmptyWhenVacuous(node, 0);
        EmptyWhenVacuous(node, base);
      }
    case And(l, r) =>
      var n := |LiveParams(l)|;
      EmittedAnd(l, r, base);
      EmittedAnd(l, r, 0);
      EmittedCountsOn(l, base);
      EmittedCountsOn(r, base + n);
      EmittedCountsOn(r, n);
      TextsAppend(Emitted(l, base), Emitted(r, base + n));
      TextsAppend(Emitted(l, 0), Emitted(r, n));
      AllTwice(Texts(Emitted(r, 0)), n, base);
    case Or(l, r) =>
      EmptyWhenVacuous(node, 0);
      EmptyWhenVacuous(node, base);
      if !Vacuous(node) {
        EmittedSolid(l);
        EmittedSolid(r);
        EmittedOr(l, r, base);
        EmittedOr(l, r, 0);
        GroupedCondition(Side(Emitted(l, 0), false) + Side(Emitted(r, 0), false), base);
      }
    case Not(inner) =>
      EmptyWhenVacuous(node, 0);
      EmptyWhenVacuous(node, base);
      if !Vacuous(node) {
        EmittedSolid(inner);
        NotEmitted(inner, base);
        NotEmitted(inner, 0);
        GroupedCondition(Glue(Emitted(inner, 0), false), base);
      }
  }

  lemma EmittedSolid(node: QueryNode)
    requires !Vacuous(node)
    ensures Emitted(node, 0) != [] && Solid(Emitted(node, 0))
  {
  }

  lemma NotEmitted(inner: QueryNode, base: nat)
    requires !Vacuous(inner)
    ensures Emitted(Not(inner), base) == [[Conj([Negated(Group(Glue(Emitted(inner, 0), false)))])]]
  {
  }

  lemma GroupedCondition(d: Disj, k: nat)
    ensures CountOn(PrintOr([Conj([Group(d)])]), 0, k) == PrintOr([Conj([Group(d)])])
    ensures CountOn(PrintOr([Conj([Negated(Group(d))])]), 0, k) == PrintOr([Conj([Negated(Group(d))])])
  {
    GroupText(d);
    GroupedStays(d, k);
  }

  lemma AllTwice(texts: seq<seq<SqlToken>>, j: nat, k: nat)
    ensures AllCountOn(AllCountOn(texts, j), k) == AllCountOn(texts, j + k)
  {
    forall i | 0 <= i < |texts| ensures CountOn(CountOn(texts[i], 0, j), 0, k) == CountOn(texts[i], 0, j + k) {
      CountOnTwice(texts[i], 0, j, k);
    }
  }

  lemma {:induction false} JoinCountsOn(texts: seq<seq<SqlToken>>, k: nat)
    requires forall i :: 0 <= i < |texts| ==> Depth(texts[i], 0) == 0
    ensures Join(AllCountOn(texts, k), AndKw) == CountOn(Join(texts, AndKw), 0, k)
  {
    if |texts| > 1 {
      JoinCountsOn(texts[1..], k);
      assert AllCountOn(texts, k)[1..] == AllCountOn(texts[1..], k);
      PairCounts(texts[0], AndKw, Join(texts[1..], AndKw), 0, k);
    }
  }

  lemma TextsBalance(node: QueryNode, base: nat)
    ensures forall i :: 0 <= i < |Texts(Emitted(node, base))| ==> Depth(Texts(Emitted(node, base))[i], 0) == 0
  {
    hide Emitted, PrintOr;
    forall i | 0 <= i < |Emitted(node, base)| ensures Depth(PrintOr(Emitted(node, base)[i]), 0) == 0 {
      PrintedOrBalances(Emitted(node, base)[i], 0);
    }
  }

  lemma {:induction false} JoinAppend(a: seq<seq<SqlToken>>, b: seq<seq<SqlToken>>)
    requires a != [] && b != []
    ensures Join(a + b, AndKw) == Join(a, AndKw) + [AndKw] + Join(b, AndKw)
  {
    assert (a + b)[1..] == a[1..] + b;
    if |a| == 1 {
      assert a[1..] + b == b;
    } else {
      JoinAppend(a[1..], b);
    }
  }

  /**
   AND puts the clauses of its sides one after the other, the placeholders of
   the second counted on from the parameters of the first; but inside OR and NOT
   they start again from one. A side that asks nothing is left out. Trees a query
   text parses to have no negated filter.
   */
  lemma AndClause(l: QueryNode, r: QueryNode)
    requires NoneNegated(r)
    ensures var n := |LiveParams(l)|;
      Clause(And(l, r)) ==
        if Conditions(l) == 0 then Clause(r)
        else if Conditions(r) == 0 then Clause(l)
        else Clause(l) + [AndKw] + CountOn(Clause(r), 0, n)
    ensures LiveParams(And(l, r)) == LiveParams(l) + LiveParams(r)
  {
    ClauseIsJoined(l);
    ClauseIsJoined(r);
    ClauseIsJoined(And(l, r));
    NothingEmitted(l, r);
    AndTexts(l, r);
    TextsBalance(r, 0);
    hide Clause, Emitted, Texts, Depth, CountOn, Join, AllCountOn;
    AndJoined(Texts(Emitted(l, 0)), Texts(Emitted(r, 0)), |LiveParams(l)|);
  }

  lemma AndTexts(l: QueryNode, r: QueryNode)
    requires NoneNegated(r)
    ensures Texts(Emitted(And(l, r), 0))
         == Texts(Emitted(l, 0)) + AllCountOn(Texts(Emitted(r, 0)), |LiveParams(l)|)
  {
    hide Emitted, CountOn, Texts;
    EmittedAnd(l, r, 0);
    EmittedCountsOn(r, |LiveParams(l)|);
    TextsAppend(Emitted(l, 0), Emitted(r, |LiveParams(l)|));
  }

  lemma AndJoined(a: seq<seq<SqlToken>>, b: seq<seq<SqlToken>>, n: nat)
    requires forall i :: 0 <= i < |b| ==> Depth(b[i], 0) == 0
    ensures b == [] ==> Join(a + AllCountOn(b, n), AndKw) == Join(a, AndKw)
    ensures a != [] && b != [] ==>
      Join(a + AllCountOn(b, n), AndKw) == Join(a, AndKw) + [AndKw] + CountOn(Join(b, AndKw), 0, n)
  {
    hide Depth, CountOn, Join;
    if b == [] {
      assert a + AllCountOn(b, n) == a;
    } else if a != [] {
      JoinCountsOn(b, n);
      JoinAppend(a, AllCountOn(b, n));
    }
  }

  lemma NothingEmitted(l: QueryNode, r: QueryNode)
    ensures Conditions(l) == 0 ==> LiveParams(l) == [] && Texts(Emitted(And(l, r), 0)) == Texts(Emitted(r, 0))
  {
    VacuousHasNone(l);
    EmittedAnd(l, r, 0);
    EmptyWhenVacuous(l, 0);
    hide Emitted;
  }
}
