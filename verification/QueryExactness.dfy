/**
 When compilation preserves meaning, exactly: for trees that compare with
 different texts everywhere and hold no impossible port, the emitted clause means
 the tree on every row if and only if the tree is aligned and keeps bare words alone.
 */
module QueryExactness {
  import opened Query
  import opened SqlText
  import opened QueryCompiler
  import opened QueryMeaning
  import opened QueryAgreement

  // ─── What a tree looks at ───

  datatype Key = Key(pred: Predicate, arg: Arg)

  function UnitKeys(u: Unit): set<Key>
    decreases u, 0
  {
    match u
    case Atom(pred, arg) => {Key(pred, arg)}
    case Group(alts) => OrKeys(alts)
    case Negated(v) => UnitKeys(v)
  }

  function AndKeys(us: seq<Unit>): set<Key>
    decreases us, 0
  {
    if us == [] then {} else UnitKeys(us[0]) + AndKeys(us[1..])
  }

  function OrKeys(d: Disj): set<Key>
    decreases d, 0
  {
    if d == [] then {} else AndKeys(d[0].units) + OrKeys(d[1..])
  }

  ghost predicate Agree(keys: set<Key>, a: Row, b: Row) {
    forall k :: k in keys ==> a(k.pred, k.arg) == b(k.pred, k.arg)
  }

  lemma {:induction false} UnitAgree(u: Unit, a: Row, b: Row)
    requires Agree(UnitKeys(u), a, b)
    ensures EvalUnit(u, a) == EvalUnit(u, b)
    decreases u, 0
  {
    match u
    case Atom(pred, arg) => assert Key(pred, arg) in UnitKeys(u);
    case Group(alts) => OrAgree(alts, a, b);
    case Negated(v) => UnitAgree(v, a, b);
  }

  lemma {:induction false} AndAgree(us: seq<Unit>, a: Row, b: Row)
    requires Agree(AndKeys(us), a, b)
    ensures EvalAnd(us, a) == EvalAnd(us, b)
    decreases us, 0
  {
    if us != [] {
      UnitAgree(us[0], a, b);
      AndAgree(us[1..], a, b);
    }
  }

  /** Rows that agree on all a condition looks at give it the same value. */
  lemma {:induction false} OrAgree(d: Disj, a: Row, b: Row)
    requires Agree(OrKeys(d), a, b)
    ensures EvalOr(d, a) == EvalOr(d, b)
    decreases d, 0
  {
    if d != [] {
      AndAgree(d[0].units, a, b);
      OrAgree(d[1..], a, b);
    }
  }

  lemma {:induction false} AndKeysAppend(us: seq<Unit>, vs: seq<Unit>)
    ensures AndKeys(us + vs) == AndKeys(us) + AndKeys(vs)
  {
    if us == [] {
      assert us + vs == vs;
    } else {
      assert (us + vs)[1..] == us[1..] + vs;
      AndKeysAppend(us[1..], vs);
    }
  }

  lemma {:induction false} OrKeysAppend(a: Disj, b: Disj)
    ensures OrKeys(a + b) == OrKeys(a) + OrKeys(b)
  {
    if a == [] {
      assert a + b == b;
    } else {
      assert (a + b)[1..] == a[1..] + b;
      OrKeysAppend(a[1..], b);
    }
  }

  lemma OneKeys(c: Conj)
    ensures OrKeys([c]) == AndKeys(c.units)
  {
    assert OrKeys([]) == {};
  }

  lemma OneUnitKeys(u: Unit)
    ensures OrKeys([Conj([u])]) == UnitKeys(u)
  {
    OneKeys(Conj([u]));
    assert AndKeys([]) == {};
  }

  lemma GlueTwoKeys(a: Disj, b: Disj)
    requires a != [] && b != []
    ensures OrKeys(GlueTwo(a, b)) == OrKeys(a) + OrKeys(b)
  {
    var front, last := a[..|a| - 1], a[|a| - 1];
    var mid := Conj(last.units + b[0].units);
    assert a == front + [last] && b == [b[0]] + b[1..];
    OrKeysAppend(front, [last]);
    OrKeysAppend([b[0]], b[1..]);
    OrKeysAppend(front, [mid]);
    OrKeysAppend(front + [mid], b[1..]);
    OneKeys(last);
    OneKeys(b[0]);
    OneKeys(mid);
    AndKeysAppend(last.units, b[0].units);
  }

  function AllKeys(cs: seq<Disj>): set<Key> {
    if cs == [] then {} else OrKeys(cs[0]) + AllKeys(cs[1..])
  }

  lemma {:induction false} AllKeysAppend(a: seq<Disj>, b: seq<Disj>)
    ensures AllKeys(a + b) == AllKeys(a) + AllKeys(b)
  {
    if a == [] {
      assert a + b == b;
    } else {
      assert (a + b)[1..] == a[1..] + b;
      AllKeysAppend(a[1..], b);
    }
  }

  lemma AllKeysOne(c: Disj)
    ensures AllKeys([c]) == OrKeys(c)
  {
    assert AllKeys([]) == {};
  }

  lemma {:induction false} GlueAllKeys(cs: seq<Disj>)
    requires cs != [] && Solid(cs)
    ensures OrKeys(GlueAll(cs)) == AllKeys(cs)
  {
    if |cs| == 1 {
      AllKeysOne(cs[0]);
      assert cs == [cs[0]];
    } else {
      GlueAllKeys(cs[1..]);
      GlueTwoKeys(cs[0], GlueAll(cs[1..]));
    }
  }

  lemma SideKeys(cs: seq<Disj>)
    requires cs != [] && Solid(cs)
    ensures OrKeys(Side(cs, false)) == AllKeys(cs)
  {
    GlueAllKeys(cs);
    OneUnitKeys(Group(Glue(cs, false)));
  }

  lemma ConditionKeys(a: seq<Disj>, b: seq<Disj>)
    requires a != [] && Solid(a) && b != [] && Solid(b)
    ensures AllKeys([OrCondition(a, b, false)]) == AllKeys(a) + AllKeys(b)
    ensures AllKeys([NotCondition(a, false)]) == AllKeys(a)
  {
    var x, y := Side(a, false), Side(b, false);
    SideKeys(a);
    SideKeys(b);
    OrKeysAppend(x, y);
    OneUnitKeys(Group(x + y));
    AllKeysOne(OrCondition(a, b, false));
    GlueAllKeys(a);
    OneUnitKeys(Negated(Group(Glue(a, false))));
    AllKeysOne(NotCondition(a, false));
  }

  /** What a live leaf compares, with its argument. */
  function LeafKeys(term: FilterTerm, arg: Arg): set<Key> {
    if Classify(term) == FullText then WordKeys(FULL_TEXT_COLUMNS, arg)
    else {Key(LeafPredicate(term), if HasParam(term) then arg else NoArg)}
  }

  function WordKeys(columns: seq<string>, arg: Arg): set<Key> {
    if columns == [] then {} else {Key(WordIn(columns[0]), arg)} + WordKeys(columns[1..], arg)
  }

  lemma {:induction false} WordKeysShow(columns: seq<string>, arg: Arg)
    ensures OrKeys(WordAlternatives(columns, arg)) == WordKeys(columns, arg)
    ensures forall k :: k in WordKeys(columns, arg) ==> k.pred.WordIn? && k.arg == arg
  {
    if columns != [] {
      WordKeysShow(columns[1..], arg);
      OneUnitKeys(Atom(WordIn(columns[0]), arg));
      OrKeysAppend([Conj([Atom(WordIn(columns[0]), arg)])], WordAlternatives(columns[1..], arg));
    }
  }

  lemma LeafKeysShow(term: FilterTerm, arg: Arg)
    ensures OrKeys(LeafCondition(term, arg)) == LeafKeys(term, arg)
  {
    if Classify(term) == FullText {
      WordKeysShow(FULL_TEXT_COLUMNS, arg);
    } else {
      LeafBodySingle(term, arg);
      OneUnitKeys(Atom(LeafPredicate(term), if HasParam(term) then arg else NoArg));
    }
    hide LeafBody, WordKeys, LeafPredicate;
    OneUnitKeys(Negated(Group(LeafBody(term, arg))));
  }

  /** All a tree compares, its live leaves having these arguments. */
  function Keys(node: QueryNode, args: seq<Arg>): set<Key>
    requires |args| == |LiveParams(node)|
  {
    match node
    case Filter(term) => if Dead(term) then {} else LeafKeys(term, if args == [] then NoArg else args[0])
    case And(l, r) => Keys(l, args[..|LiveParams(l)|]) + Keys(r, args[|LiveParams(l)|..])
    case Or(l, r) =>
      if Vacuous(node) then {} else Keys(l, args[..|LiveParams(l)|]) + Keys(r, args[|LiveParams(l)|..])
    case Not(inner) => if Vacuous(inner) then {} else Keys(inner, args)
  }

  lemma {:induction false} BuildKeys(node: QueryNode, args: seq<Arg>)
    requires |args| == |LiveParams(node)|
    ensures AllKeys(Build(node, args, false)) == Keys(node, args)
  {
    hide OrCondition, NotCondition, LeafCondition, LeafKeys, OrKeys;
    match node
    case Filter(term) =>
      var arg := if args == [] then NoArg else args[0];
      LeafKeysShow(term, arg);
      AllKeysOne(LeafCondition(term, arg));
    case And(l, r) =>
      var n := |LiveParams(l)|;
      BuildKeys(l, args[..n]);
      BuildKeys(r, args[n..]);
      AllKeysAppend(Build(l, args[..n], false), Build(r, args[n..], false));
    case Or(l, r) =>
      if !Vacuous(node) {
        var n := |LiveParams(l)|;
        BuildKeys(l, args[..n]);
        BuildKeys(r, args[n..]);
        ConditionKeys(Build(l, args[..n], false), Build(r, args[n..], false));
      }
    case Not(inner) =>
      if !Vacuous(inner) {
        BuildKeys(inner, args);
        ConditionKeys(Build(inner, args, false), Build(inner, args, false));
      }
  }

  /** A tree compares with its arguments only. */
  lemma {:induction false} KeysUseArgs(node: QueryNode, args: seq<Arg>)
    requires |args| == |LiveParams(node)|
    ensures forall k :: k in Keys(node, args) ==> k.arg == NoArg || k.arg in args
  {
    match node
    case Filter(term) =>
      if !Dead(term) {
        WordKeysShow(FULL_TEXT_COLUMNS, if args == [] then NoArg else args[0]);
      }
    case And(l, r) =>
      KeysUseArgs(l, args[..|LiveParams(l)|]);
      KeysUseArgs(r, args[|LiveParams(l)|..]);
    case Or(l, r) =>
      if !Vacuous(node) {
        KeysUseArgs(l, args[..|LiveParams(l)|]);
        KeysUseArgs(r, args[|LiveParams(l)|..]);
      }
    case Not(inner) =>
      if !Vacuous(inner) {
        KeysUseArgs(inner, args);
      }
  }

  /** The value of an emitted clause depends on those keys alone. */
  lemma ClauseAgree(node: QueryNode, args: seq<Arg>, a: Row, b: Row)
    requires |args| == |LiveParams(node)| && Agree(Keys(node, args), a, b)
    ensures EvalOr(ClauseTree(Build(node, args, false), false), a)
         == EvalOr(ClauseTree(Build(node, args, false), false), b)
  {
    var cs := Build(node, args, false);
    BuildKeys(node, args);
    hide Build, Keys, OrKeys;
    if cs == [] {
      EvalOne(Atom(TrueLit, NoArg), a);
      EvalOne(Atom(TrueLit, NoArg), b);
    } else {
      GlueAllKeys(cs);
      OrAgree(GlueAll(cs), a, b);
    }
  }

  // ─── Trees whose leaves are all different ───

  /** What a tree compares when every leaf has its own text. */
  function Right(node: QueryNode): set<Key> {
    match node
    case Filter(term) => if Dead(term) then {} else LeafKeys(term, RightArg(term))
    case And(l, r) => Right(l) + Right(r)
    case Or(l, r) => if Vacuous(node) then {} else Right(l) + Right(r)
    case Not(inner) => if Vacuous(inner) then {} else Right(inner)
  }

  function RightArg(term: FilterTerm): Arg {
    if HasParam(term) then Bound(ParamText(term)) else NoArg
  }

  lemma {:induction false} RightKeys(node: QueryNode)
    ensures Keys(node, Bounds(LiveParams(node))) == Right(node)
  {
    hide LeafKeys, ParamText;
    match node
    case Filter(term) =>
    case And(l, r) =>
      RightKeys(l);
      RightKeys(r);
      BoundsSplit(LiveParams(l), LiveParams(r));
    case Or(l, r) =>
      if !Vacuous(node) {
        RightKeys(l);
        RightKeys(r);
        BoundsSplit(LiveParams(l), LiveParams(r));
      }
    case Not(inner) =>
      if !Vacuous(inner) {
        RightKeys(inner);
      }
  }

  lemma BoundsSplit(a: seq<string>, b: seq<string>)
    ensures Bounds(a + b)[..|a|] == Bounds(a) && Bounds(a + b)[|a|..] == Bounds(b)
  {
  }

  /** No two live leaves compare the same thing. */
  predicate ReadOnce(node: QueryNode) {
    match node
    case Filter(_) => true
    case And(l, r) => Right(l) !! Right(r) && ReadOnce(l) && ReadOnce(r)
    case Or(l, r) => Vacuous(node) || (Right(l) !! Right(r) && ReadOnce(l) && ReadOnce(r))
    case Not(inner) => Vacuous(inner) || ReadOnce(inner)
  }

  /** No live leaf asks for an impossible port, which compiles to FALSE. */
  predicate NoFalse(node: QueryNode) {
    match node
    case Filter(term) => Dead(term) || Classify(term) != Port || HasParam(term)
    case And(l, r) => NoFalse(l) && NoFalse(r)
    case Or(l, r) => Vacuous(node) || (NoFalse(l) && NoFalse(r))
    case Not(inner) => Vacuous(inner) || NoFalse(inner)
  }

  /** One row on what the left looks at, another elsewhere. */
  function Merge(keys: set<Key>, a: Row, b: Row): Row {
    (pred, arg) => if Key(pred, arg) in keys then a(pred, arg) else b(pred, arg)
  }

  lemma MergeAgrees(l: set<Key>, r: set<Key>, a: Row, b: Row)
    requires l !! r
    ensures Agree(l, Merge(l, a, b), a) && Agree(r, Merge(l, a, b), b)
  {
  }

  lemma {:induction false} AnyColumnAgree(columns: seq<string>, arg: Arg, a: Row, b: Row)
    requires Agree(WordKeys(columns, arg), a, b)
    ensures AnyColumn(columns, arg, a) == AnyColumn(columns, arg, b)
  {
    if columns != [] {
      assert Key(WordIn(columns[0]), arg) in WordKeys(columns, arg);
      AnyColumnAgree(columns[1..], arg, a, b);
    }
  }

  lemma TermAgree(term: FilterTerm, a: Row, b: Row)
    requires Agree(LeafKeys(term, RightArg(term)), a, b)
    ensures TermMeaning(term, a) == TermMeaning(term, b)
  {
    if Classify(term) == FullText {
      AnyColumnAgree(FULL_TEXT_COLUMNS, RightArg(term), a, b);
    } else {
      assert Key(LeafPredicate(term), RightArg(term)) in LeafKeys(term, RightArg(term));
    }
  }

  /** So does the meaning of a tree. */
  lemma {:induction false} MeaningAgree(node: QueryNode, a: Row, b: Row)
    requires Agree(Right(node), a, b)
    ensures Meaning(node, a) == Meaning(node, b)
  {
    hide TermMeaning, LeafKeys;
    if !Vacuous(node) {
      match node
      case Filter(term) => TermAgree(term, a, b);
      case And(l, r) =>
        MeaningAgree(l, a, b);
        MeaningAgree(r, a, b);
      case Or(l, r) =>
        MeaningAgree(l, a, b);
        MeaningAgree(r, a, b);
      case Not(inner) => MeaningAgree(inner, a, b);
    }
  }

  // ─── Rows that make a whole tree true, or false ───

  function Truth(v: bool): Tri { if v then T else F }

  /** Every comparison pulls the same way: towards the tree being `v`. */
  ghost predicate Pulls(node: QueryNode, v: bool, row: Row) {
    match node
    case Filter(term) => Dead(term) || LeafPulls(term, v, row)
    case And(l, r) => Pulls(l, v, row) && Pulls(r, v, row)
    case Or(l, r) => Vacuous(node) || (Pulls(l, v, row) && Pulls(r, v, row))
    case Not(inner) => Vacuous(inner) || Pulls(inner, !v, row)
  }

  ghost predicate LeafPulls(term: FilterTerm, v: bool, row: Row) {
    forall k :: k in LeafKeys(term, RightArg(term)) ==> row(k.pred, k.arg) == Truth(v != term.negate)
  }

  lemma {:induction false} PullsAgree(node: QueryNode, v: bool, a: Row, b: Row)
    requires Pulls(node, v, a) && Agree(Right(node), a, b)
    ensures Pulls(node, v, b)
  {
    hide LeafKeys;
    match node
    case Filter(term) =>
    case And(l, r) =>
      PullsAgree(l, v, a, b);
      PullsAgree(r, v, a, b);
    case Or(l, r) =>
      if !Vacuous(node) {
        PullsAgree(l, v, a, b);
        PullsAgree(r, v, a, b);
      }
    case Not(inner) =>
      if !Vacuous(inner) {
        PullsAgree(inner, !v, a, b);
      }
  }

  lemma PullBoth(l: QueryNode, r: QueryNode, v: bool) returns (row: Row)
    requires Right(l) !! Right(r)
    requires exists a :: Pulls(l, v, a)
    requires exists b :: Pulls(r, v, b)
    ensures Pulls(l, v, row) && Pulls(r, v, row)
  {
    var a :| Pulls(l, v, a);
    var b :| Pulls(r, v, b);
    row := Merge(Right(l), a, b);
    MergeAgrees(Right(l), Right(r), a, b);
    PullsAgree(l, v, a, row);
    PullsAgree(r, v, b, row);
  }

  lemma {:induction false} PullExists(node: QueryNode, v: bool) returns (row: Row)
    requires ReadOnce(node)
    ensures Pulls(node, v, row)
  {
    row := (pred, arg) => T;
    match node {
      case Filter(term) => row := (pred, arg) => Truth(v != term.negate);
      case And(l, r) =>
        var a := PullExists(l, v);
        var b := PullExists(r, v);
        row := PullBoth(l, r, v);
      case Or(l, r) =>
        if !Vacuous(node) {
          var a := PullExists(l, v);
          var b := PullExists(r, v);
          row := PullBoth(l, r, v);
        }
      case Not(inner) =>
        if !Vacuous(inner) {
          row := PullExists(inner, !v);
        }
    }
  }

  lemma {:induction false} ColumnsPull(columns: seq<string>, arg: Arg, v: bool, row: Row)
    requires columns != [] && forall k :: k in WordKeys(columns, arg) ==> row(k.pred, k.arg) == Truth(v)
    ensures AnyColumn(columns, arg, row) == Truth(v)
  {
    assert Key(WordIn(columns[0]), arg) in WordKeys(columns, arg);
    if |columns| > 1 {
      ColumnsPull(columns[1..], arg, v, row);
    }
  }

  lemma TermPulled(term: FilterTerm, v: bool, row: Row)
    requires !Dead(term) && NoFalse(Filter(term)) && LeafPulls(term, v, row)
    ensures TermMeaning(term, row) == Truth(v)
  {
    if Classify(term) == FullText {
      ColumnsPull(FULL_TEXT_COLUMNS, RightArg(term), v != term.negate, row);
    } else {
      assert Key(LeafPredicate(term), RightArg(term)) in LeafKeys(term, RightArg(term));
    }
  }

  lemma {:induction false} MeaningPulled(node: QueryNode, v: bool, row: Row)
    requires Pulls(node, v, row) && NoFalse(node) && !Vacuous(node)
    ensures Meaning(node, row) == Truth(v)
  {
    hide TermMeaning, LeafKeys, LeafPulls;
    match node
    case Filter(term) => TermPulled(term, v, row);
    case And(l, r) =>
      if !Vacuous(l) {
        MeaningPulled(l, v, row);
      }
      if !Vacuous(r) {
        MeaningPulled(r, v, row);
      }
    case Or(l, r) =>
      MeaningPulled(l, v, row);
      MeaningPulled(r, v, row);
    case Not(inner) => MeaningPulled(inner, !v, row);
  }

  /** Every alternative has the value `v`. */
  ghost predicate Even(d: Disj, v: bool, row: Row) {
    d != [] && forall i :: 0 <= i < |d| ==> EvalAnd(d[i].units, row) == Truth(v)
  }

  ghost predicate AllEven(cs: seq<Disj>, v: bool, row: Row) {
    forall i :: 0 <= i < |cs| ==> Even(cs[i], v, row)
  }

  lemma {:induction false} EvenValue(d: Disj, v: bool, row: Row)
    requires Even(d, v, row)
    ensures EvalOr(d, row) == Truth(v)
  {
    if |d| > 1 {
      EvenValue(d[1..], v, row);
    } else {
      assert EvalOr(d[1..], row) == F;
    }
  }

  lemma EvenOne(u: Unit, v: bool, row: Row)
    requires EvalUnit(u, row) == Truth(v)
    ensures Even([Conj([u])], v, row)
  {
    assert EvalAnd([u], row) == And3(EvalUnit(u, row), EvalAnd([], row));
  }

  lemma EvenGlueTwo(a: Disj, b: Disj, v: bool, row: Row)
    requires Even(a, v, row) && Even(b, v, row)
    ensures Even(GlueTwo(a, b), v, row)
  {
    EvalAndAppend(a[|a| - 1].units, b[0].units, row);
  }

  lemma {:induction false} EvenGlueAll(cs: seq<Disj>, v: bool, row: Row)
    requires cs != [] && Solid(cs) && AllEven(cs, v, row)
    ensures Even(GlueAll(cs), v, row)
  {
    if |cs| > 1 {
      EvenGlueAll(cs[1..], v, row);
      EvenGlueTwo(cs[0], GlueAll(cs[1..]), v, row);
    }
  }

  lemma {:induction false} EvenAll(cs: seq<Disj>, v: bool, row: Row)
    requires AllEven(cs, v, row)
    ensures EvalAll(cs, row) == if cs == [] then T else Truth(v)
  {
    if cs != [] {
      EvenValue(cs[0], v, row);
      EvenAll(cs[1..], v, row);
    }
  }

  lemma SideEval(cs: seq<Disj>, row: Row)
    requires cs != [] && Solid(cs)
    ensures EvalOr(Side(cs, false), row) == EvalOr(GlueAll(cs), row)
  {
    EvalOne(Group(Glue(cs, false)), row);
  }

  lemma ConditionEval(a: seq<Disj>, b: seq<Disj>, row: Row)
    requires a != [] && Solid(a) && b != [] && Solid(b)
    ensures EvalOr(OrCondition(a, b, false), row) == Or3(EvalOr(GlueAll(a), row), EvalOr(GlueAll(b), row))
    ensures EvalOr(NotCondition(a, false), row) == Not3(EvalOr(GlueAll(a), row))
  {
    SideEval(a, row);
    SideEval(b, row);
    EvalOrAppend(Side(a, false), Side(b, false), row);
    EvalOne(Group(Side(a, false) + Side(b, false)), row);
    var body := Group(Glue(a, false));
    EvalOne(Negated(body), row);
    assert EvalUnit(Negated(body), row) == Not3(EvalUnit(body, row));
  }

  lemma SingleEven(u: Unit, v: bool, row: Row)
    requires EvalOr([Conj([u])], row) == Truth(v)
    ensures Even([Conj([u])], v, row)
  {
    EvalOne(u, row);
    EvenOne(u, v, row);
  }

  lemma WordsEven(term: FilterTerm, v: bool, row: Row)
    requires Classify(term) == FullText && LeafPulls(term, v, row)
    ensures Even(LeafBody(term, RightArg(term)), v != term.negate, row)
  {
    var arg, w := RightArg(term), v != term.negate;
    WordAlternativesWf(FULL_TEXT_COLUMNS, arg);
    var d := WordAlternatives(FULL_TEXT_COLUMNS, arg);
    forall i | 0 <= i < |d| ensures EvalAnd(d[i].units, row) == Truth(w) {
      WordKeyIn(FULL_TEXT_COLUMNS, arg, i);
      EvenOne(Atom(WordIn(FULL_TEXT_COLUMNS[i]), arg), w, row);
      assert [d[i]][0] == d[i];
    }
  }

  lemma {:induction false} WordKeyIn(columns: seq<string>, arg: Arg, i: nat)
    requires i < |columns|
    ensures Key(WordIn(columns[i]), arg) in WordKeys(columns, arg)
  {
    if i > 0 {
      WordKeyIn(columns[1..], arg, i - 1);
    }
  }

  lemma LeafEven(term: FilterTerm, v: bool, row: Row)
    requires !Dead(term) && NoFalse(Filter(term)) && LeafPulls(term, v, row)
    ensures Even(LeafCondition(term, RightArg(term)), v, row)
  {
    TermPulled(term, v, row);
    EvalLeaf(term, row);
    hide TermMeaning, LeafKeys;
    if term.negate {
      SingleEven(Negated(Group(LeafBody(term, RightArg(term)))), v, row);
    } else if Classify(term) == FullText {
      WordsEven(term, v, row);
    } else {
      LeafBodySingle(term, RightArg(term));
      SingleEven(Atom(LeafPredicate(term), RightArg(term)), v, row);
    }
  }

  function RightBuild(node: QueryNode): (cs: seq<Disj>)
    ensures (cs == []) == Vacuous(node)
    ensures Solid(cs)
  {
    Build(node, Bounds(LiveParams(node)), false)
  }

  lemma RightBuildAnd(l: QueryNode, r: QueryNode)
    ensures RightBuild(And(l, r)) == RightBuild(l) + RightBuild(r)
  {
    BoundsAppend(LiveParams(l), LiveParams(r));
    BuildAnd(l, r, Bounds(LiveParams(l)), Bounds(LiveParams(r)), false);
  }

  lemma RightBuildOr(l: QueryNode, r: QueryNode)
    requires !Vacuous(Or(l, r))
    ensures RightBuild(Or(l, r)) == [OrCondition(RightBuild(l), RightBuild(r), false)]
  {
    BoundsAppend(LiveParams(l), LiveParams(r));
    BuildOr(l, r, Bounds(LiveParams(l)), Bounds(LiveParams(r)), false);
  }

  lemma RightBuildNot(inner: QueryNode)
    requires !Vacuous(inner)
    ensures RightBuild(Not(inner)) == [NotCondition(RightBuild(inner), false)]
  {
  }

  lemma RightBuildLeaf(term: FilterTerm)
    requires !Dead(term)
    ensures RightBuild(Filter(term)) == [LeafCondition(term, RightArg(term))]
  {
    hide LeafCondition;
  }

  /** A row that pulls a tree one way pulls every alternative of its clause that way. */
  lemma {:induction false} BuildPulled(node: QueryNode, v: bool, row: Row)
    requires Pulls(node, v, row) && NoFalse(node)
    ensures AllEven(RightBuild(node), v, row)
  {
    hide RightBuild, LeafPulls, LeafCondition, OrCondition, NotCondition;
    if !Vacuous(node) {
      match node
      case Filter(term) =>
        RightBuildLeaf(term);
        LeafEven(term, v, row);
      case And(l, r) =>
        BuildPulled(l, v, row);
        BuildPulled(r, v, row);
        RightBuildAnd(l, r);
      case Or(l, r) =>
        BuildPulled(l, v, row);
        BuildPulled(r, v, row);
        RightBuildOr(l, r);
        OrPulled(RightBuild(l), RightBuild(r), v, row);
      case Not(inner) =>
        BuildPulled(inner, !v, row);
        RightBuildNot(inner);
        NotPulled(RightBuild(inner), v, row);
    }
  }

  lemma OrPulled(a: seq<Disj>, b: seq<Disj>, v: bool, row: Row)
    requires a != [] && b != [] && Solid(a) && Solid(b) && AllEven(a, v, row) && AllEven(b, v, row)
    ensures Even(OrCondition(a, b, false), v, row)
  {
    EvenGlueAll(a, v, row);
    EvenGlueAll(b, v, row);
    EvenValue(GlueAll(a), v, row);
    EvenValue(GlueAll(b), v, row);
    ConditionEval(a, b, row);
    SingleEven(Group(Side(a, false) + Side(b, false)), v, row);
  }

  lemma NotPulled(a: seq<Disj>, v: bool, row: Row)
    requires a != [] && Solid(a) && AllEven(a, !v, row)
    ensures Even(NotCondition(a, false), v, row)
  {
    EvenGlueAll(a, !v, row);
    EvenValue(GlueAll(a), !v, row);
    ConditionEval(a, a, row);
    SingleEven(Negated(Group(Glue(a, false))), v, row);
  }

  lemma {:induction false} AllAgreeRows(cs: seq<Disj>, a: Row, b: Row)
    requires Agree(AllKeys(cs), a, b)
    ensures EvalAll(cs, a) == EvalAll(cs, b)
  {
    if cs != [] {
      OrAgree(cs[0], a, b);
      AllAgreeRows(cs[1..], a, b);
    }
  }

  /** Rows that agree on what a tree looks at agree on all its values. */
  lemma TreeAgree(node: QueryNode, a: Row, b: Row)
    requires Agree(Right(node), a, b)
    ensures EvalAll(RightBuild(node), a) == EvalAll(RightBuild(node), b)
    ensures Meaning(node, a) == Meaning(node, b)
    ensures !Vacuous(node) ==> EvalOr(GlueAll(RightBuild(node)), a) == EvalOr(GlueAll(RightBuild(node)), b)
  {
    MeaningAgree(node, a, b);
    BuildKeys(node, Bounds(LiveParams(node)));
    RightKeys(node);
    hide Right, Keys, Build, AllKeys, OrKeys, Meaning;
    AllAgreeRows(RightBuild(node), a, b);
    if !Vacuous(node) {
      GlueAllKeys(RightBuild(node));
      OrAgree(GlueAll(RightBuild(node)), a, b);
    }
  }

  // ─── A bare word in a conjunction makes a difference ───

  /** An alternative that is neither first nor last is true: joining by AND does not touch it. */
  ghost predicate InnerTrue(d: Disj, row: Row) {
    exists m :: 0 < m < |d| - 1 && EvalAnd(d[m].units, row) == T
  }

  lemma {:induction false} AlternativeTrue(d: Disj, m: nat, row: Row)
    requires m < |d| && EvalAnd(d[m].units, row) == T
    ensures EvalOr(d, row) == T
  {
    if m > 0 {
      AlternativeTrue(d[1..], m - 1, row);
    }
  }

  lemma InnerGlueTwo(a: Disj, b: Disj, row: Row)
    requires a != [] && b != [] && (InnerTrue(a, row) || InnerTrue(b, row))
    ensures InnerTrue(GlueTwo(a, b), row)
  {
    var g := GlueTwo(a, b);
    if InnerTrue(a, row) {
      var m :| 0 < m < |a| - 1 && EvalAnd(a[m].units, row) == T;
      assert g[m] == a[m];
    } else {
      var m :| 0 < m < |b| - 1 && EvalAnd(b[m].units, row) == T;
      assert g[|a| - 1 + m] == b[m];
    }
  }

  lemma {:induction false} InnerGlueAll(cs: seq<Disj>, i: nat, row: Row)
    requires i < |cs| && Solid(cs) && InnerTrue(cs[i], row)
    ensures InnerTrue(GlueAll(cs), row)
  {
    if |cs| > 1 {
      if i > 0 {
        InnerGlueAll(cs[1..], i - 1, row);
      }
      InnerGlueTwo(cs[0], GlueAll(cs[1..]), row);
    }
  }

  ghost predicate AllTrue(keys: set<Key>, row: Row) {
    forall k :: k in keys ==> row(k.pred, k.arg) == T
  }

  lemma ChainLeafInner(term: FilterTerm, row: Row)
    requires Classify(term) == FullText && !term.negate && AllTrue(LeafKeys(term, RightArg(term)), row)
    ensures InnerTrue(LeafCondition(term, RightArg(term)), row)
  {
    var arg := RightArg(term);
    var d := WordAlternatives(FULL_TEXT_COLUMNS, arg);
    WordAlternativesWf(FULL_TEXT_COLUMNS, arg);
    WordKeyIn(FULL_TEXT_COLUMNS, arg, 1);
    assert d[1] == Conj([Atom(WordIn(FULL_TEXT_COLUMNS[1]), arg)]);
    assert EvalAnd(d[1].units, row) == And3(EvalUnit(d[1].units[0], row), EvalAnd([], row));
  }

  ghost predicate SomeInner(cs: seq<Disj>, row: Row) {
    exists i :: 0 <= i < |cs| && InnerTrue(cs[i], row)
  }

  lemma SomeInnerAppend(a: seq<Disj>, b: seq<Disj>, row: Row)
    requires SomeInner(a, row) || SomeInner(b, row)
    ensures SomeInner(a + b, row)
  {
    hide InnerTrue;
    if SomeInner(a, row) {
      var i :| 0 <= i < |a| && InnerTrue(a[i], row);
      assert (a + b)[i] == a[i];
    } else {
      var i :| 0 <= i < |b| && InnerTrue(b[i], row);
      assert (a + b)[|a| + i] == b[i];
    }
  }

  /** Where all comparisons are true, an unparenthesised chain has such an alternative. */
  lemma {:induction false} ChainInner(node: QueryNode, row: Row)
    requires AllTrue(Right(node), row) && true in Chains(node)
    ensures SomeInner(RightBuild(node), row)
  {
    hide RightBuild, InnerTrue, LeafKeys, LeafCondition;
    match node
    case Filter(term) =>
      RightBuildLeaf(term);
      ChainLeafInner(term, row);
      assert [LeafCondition(term, RightArg(term))][0] == LeafCondition(term, RightArg(term));
    case And(l, r) =>
      if true in Chains(l) {
        ChainInner(l, row);
      } else {
        ChainInner(r, row);
      }
      RightBuildAnd(l, r);
      SomeInnerAppend(RightBuild(l), RightBuild(r), row);
    case _ =>
  }

  /** A chain among several conditions: true by itself, while another condition is false. */
  lemma {:induction false} SharedDiffers(node: QueryNode) returns (row: Row)
    requires ReadOnce(node) && NoFalse(node) && !Joinable(Chains(node))
    ensures SomeInner(RightBuild(node), row) && Meaning(node, row) == F
  {
    hide RightBuild, SomeInner;
    row := (pred, arg) => T;
    match node {
      case Filter(term) =>
      case Or(l, r) =>
      case Not(inner) =>
      case And(l, r) =>
        RightBuildAnd(l, r);
        if Vacuous(l) {
          assert Chains(node) == Chains(r);
          row := SharedDiffers(r);
          SomeInnerAppend(RightBuild(l), RightBuild(r), row);
        } else if Vacuous(r) {
          assert Chains(node) == Chains(l);
          row := SharedDiffers(l);
          SomeInnerAppend(RightBuild(l), RightBuild(r), row);
        } else if true in Chains(l) {
          row := OneSided(l, r);
          SomeInnerAppend(RightBuild(l), RightBuild(r), row);
        } else {
          row := OneSided(r, l);
          SomeInnerAppend(RightBuild(l), RightBuild(r), row);
        }
    }
  }

  lemma OneSided(l: QueryNode, r: QueryNode) returns (row: Row)
    requires Right(l) !! Right(r) && ReadOnce(r) && NoFalse(r) && !Vacuous(r) && true in Chains(l)
    ensures SomeInner(RightBuild(l), row) && Meaning(r, row) == F
  {
    var a: Row := (pred, arg) => T;
    var b := PullExists(r, false);
    row := Merge(Right(l), a, b);
    MergeAgrees(Right(l), Right(r), a, b);
    ChainInner(l, row);
    PullsAgree(r, false, b, row);
    MeaningPulled(r, false, row);
  }

  lemma JoinableEval(cs: seq<Disj>, chains: seq<bool>, row: Row)
    requires cs != [] && Solid(cs) && Shaped(cs, chains) && Joinable(chains)
    ensures EvalOr(GlueAll(cs), row) == EvalAll(cs, row)
  {
    if |cs| == 1 {
      EvalAllOne(cs[0], row);
      assert cs == [cs[0]];
    } else {
      ShapedSingles(cs, chains);
      GlueSingles(cs);
      EvalWrapAll(cs, row);
      OneConj(WrapAll(cs), row);
    }
  }

  lemma OneConj(us: seq<Unit>, row: Row)
    ensures EvalOr([Conj(us)], row) == EvalAnd(us, row)
  {
    assert EvalOr([Conj(us)], row) == Or3(EvalAnd(us, row), EvalOr([], row));
  }

  /** The two sides of an AND, and of an OR, on a row that differs left and pulls right. */
  lemma Beside(l: QueryNode, r: QueryNode, a: Row, v: bool) returns (row: Row)
    requires Right(l) !! Right(r) && ReadOnce(r) && NoFalse(r)
    ensures Agree(Right(l), row, a)
    ensures EvalAll(RightBuild(r), row) == Meaning(r, row)
    ensures Meaning(r, row) == if Vacuous(r) then T else Truth(v)
    ensures !Vacuous(r) ==> EvalOr(GlueAll(RightBuild(r)), row) == Truth(v)
  {
    var b := PullExists(r, v);
    row := Merge(Right(l), a, b);
    MergeAgrees(Right(l), Right(r), a, b);
    PullsAgree(r, v, b, row);
    BuildPulled(r, v, row);
    hide Right, Pulls, RightBuild;
    EvenAll(RightBuild(r), v, row);
    if !Vacuous(r) {
      MeaningPulled(r, v, row);
      EvenGlueAll(RightBuild(r), v, row);
      EvenValue(GlueAll(RightBuild(r)), v, row);
    }
  }

  lemma AndDiffers(l: QueryNode, r: QueryNode, a: Row) returns (row: Row)
    requires Right(l) !! Right(r) && ReadOnce(r) && NoFalse(r)
    requires EvalAll(RightBuild(l), a) != Meaning(l, a)
    ensures EvalAll(RightBuild(l), row) != Meaning(l, row)
    ensures EvalAll(RightBuild(r), row) == Meaning(r, row) == T
  {
    row := Beside(l, r, a, true);
    TreeAgree(l, row, a);
  }

  lemma OrDiffers(l: QueryNode, r: QueryNode, a: Row) returns (row: Row)
    requires Right(l) !! Right(r) && ReadOnce(r) && NoFalse(r) && !Vacuous(l) && !Vacuous(r)
    requires EvalOr(GlueAll(RightBuild(l)), a) != Meaning(l, a)
    ensures EvalOr(GlueAll(RightBuild(l)), row) != Meaning(l, row)
    ensures EvalOr(GlueAll(RightBuild(r)), row) == Meaning(r, row) == F
  {
    row := Beside(l, r, a, false);
    TreeAgree(l, row, a);
  }

  lemma AndValues(l: QueryNode, r: QueryNode, row: Row)
    ensures EvalAll(RightBuild(And(l, r)), row) == And3(EvalAll(RightBuild(l), row), EvalAll(RightBuild(r), row))
    ensures Meaning(And(l, r), row) == And3(Meaning(l, row), Meaning(r, row))
  {
    RightBuildAnd(l, r);
    EvalAllAppend(RightBuild(l), RightBuild(r), row);
  }

  lemma OrValues(l: QueryNode, r: QueryNode, row: Row)
    requires !Vacuous(Or(l, r))
    ensures EvalAll(RightBuild(Or(l, r)), row) ==
      Or3(EvalOr(GlueAll(RightBuild(l)), row), EvalOr(GlueAll(RightBuild(r)), row))
    ensures Meaning(Or(l, r), row) == Or3(Meaning(l, row), Meaning(r, row))
  {
    RightBuildOr(l, r);
    ConditionEval(RightBuild(l), RightBuild(r), row);
    EvalAllOne(OrCondition(RightBuild(l), RightBuild(r), false), row);
  }

  lemma NotValues(inner: QueryNode, row: Row)
    requires !Vacuous(inner)
    ensures EvalAll(RightBuild(Not(inner)), row) == Not3(EvalOr(GlueAll(RightBuild(inner)), row))
    ensures Meaning(Not(inner), row) == Not3(Meaning(inner, row))
  {
    RightBuildNot(inner);
    ConditionEval(RightBuild(inner), RightBuild(inner), row);
    EvalAllOne(NotCondition(RightBuild(inner), false), row);
  }

  lemma {:induction false} InnerDiffers(node: QueryNode) returns (row: Row)
    requires ReadOnce(node) && NoFalse(node) && !InnerWordsAlone(node)
    ensures EvalAll(RightBuild(node), row) != Meaning(node, row)
    decreases node, 0
  {
    hide RightBuild, Meaning, Right, Chains;
    row := (pred, arg) => T;
    match node {
      case Filter(term) =>
      case And(l, r) =>
        if !InnerWordsAlone(l) {
          var a := InnerDiffers(l);
          row := AndDiffers(l, r, a);
        } else {
          var a := InnerDiffers(r);
          row := AndDiffers(r, l, a);
        }
        AndValues(l, r, row);
      case Or(l, r) =>
        if !WordsAlone(l) {
          var a := Differs(l);
          row := OrDiffers(l, r, a);
        } else {
          var a := Differs(r);
          row := OrDiffers(r, l, a);
        }
        OrValues(l, r, row);
      case Not(inner) =>
        row := Differs(inner);
        NotValues(inner, row);
    }
  }

  /** Where a bare word shares a conjunction, some row tells the clause from the tree. */
  lemma {:induction false} Differs(node: QueryNode) returns (row: Row)
    requires ReadOnce(node) && NoFalse(node) && !WordsAlone(node) && !Vacuous(node)
    ensures EvalOr(GlueAll(RightBuild(node)), row) != Meaning(node, row)
    decreases node, 1
  {
    var cs := RightBuild(node);
    BuildShaped(node, Bounds(LiveParams(node)), false);
    hide Meaning, Build, Right, Chains;
    if Joinable(Chains(node)) {
      row := InnerDiffers(node);
      JoinableEval(cs, Chains(node), row);
    } else {
      row := SharedDiffers(node);
      var i :| 0 <= i < |cs| && InnerTrue(cs[i], row);
      InnerGlueAll(cs, i, row);
      var m :| 0 < m < |GlueAll(cs)| - 1 && EvalAnd(GlueAll(cs)[m].units, row) == T;
      AlternativeTrue(GlueAll(cs), m, row);
    }
  }

  // ─── A wrong text makes a difference ───

  /** The rows differ on one text only. */
  ghost predicate Off(text: string, a: Row, b: Row) {
    forall pred, arg :: arg != Bound(text) ==> a(pred, arg) == b(pred, arg)
  }

  lemma MergeOff(text: string, keys: set<Key>, a: Row, b: Row, c: Row)
    requires Off(text, a, b)
    ensures Off(text, Merge(keys, a, c), Merge(keys, b, c))
  {
  }

  lemma TermMatters(term: FilterTerm) returns (a: Row, b: Row)
    requires !Dead(term) && HasParam(term)
    ensures Off(ParamText(term), a, b) && TermMeaning(term, a) != TermMeaning(term, b)
  {
    var v := !term.negate;
    a := (pred, arg) => T;
    b := (pred, arg) => if arg == Bound(ParamText(term)) then F else T;
    assert LeafPulls(term, v, a);
    assert LeafPulls(term, !v, b) by {
      WordKeysShow(FULL_TEXT_COLUMNS, RightArg(term));
    }
    TermPulled(term, v, a);
    TermPulled(term, !v, b);
  }

  lemma BesideBoth(l: QueryNode, r: QueryNode, a: Row, b: Row, text: string, v: bool) returns (x: Row, y: Row)
    requires Right(l) !! Right(r) && ReadOnce(r) && NoFalse(r) && Off(text, a, b)
    requires Meaning(l, a) != Meaning(l, b)
    ensures Off(text, x, y) && Meaning(l, x) != Meaning(l, y)
    ensures Meaning(r, x) == Meaning(r, y) == if Vacuous(r) then T else Truth(v)
  {
    var c := PullExists(r, v);
    x, y := Merge(Right(l), a, c), Merge(Right(l), b, c);
    MergeOff(text, Right(l), a, b, c);
    MergeAgrees(Right(l), Right(r), a, c);
    MergeAgrees(Right(l), Right(r), b, c);
    MeaningAgree(l, x, a);
    MeaningAgree(l, y, b);
    PullsAgree(r, v, c, x);
    PullsAgree(r, v, c, y);
    hide Right, Pulls, Meaning;
    if !Vacuous(r) {
      MeaningPulled(r, v, x);
      MeaningPulled(r, v, y);
    } else {
      VacuousMeaning(r, x);
      VacuousMeaning(r, y);
    }
  }

  lemma VacuousMeaning(node: QueryNode, row: Row)
    requires Vacuous(node)
    ensures Meaning(node, row) == T
  {
  }

  /** Every parameter of a tree matters to its meaning. */
  lemma {:induction false} ParamMatters(node: QueryNode, i: nat) returns (a: Row, b: Row)
    requires ReadOnce(node) && NoFalse(node) && i < |LiveParams(node)|
    ensures Off(LiveParams(node)[i], a, b) && Meaning(node, a) != Meaning(node, b)
  {
    hide Right, TermMeaning, Off;
    match node {
      case Filter(term) => a, b := TermMatters(term);
      case And(l, r) =>
        var n := |LiveParams(l)|;
        if i < n {
          a, b := ParamMatters(l, i);
          a, b := BesideBoth(l, r, a, b, LiveParams(l)[i], true);
        } else {
          a, b := ParamMatters(r, i - n);
          a, b := BesideBoth(r, l, a, b, LiveParams(r)[i - n], true);
        }
      case Or(l, r) =>
        var n := |LiveParams(l)|;
        if i < n {
          a, b := ParamMatters(l, i);
          a, b := BesideBoth(l, r, a, b, LiveParams(l)[i], false);
        } else {
          a, b := ParamMatters(r, i - n);
          a, b := BesideBoth(r, l, a, b, LiveParams(r)[i - n], false);
        }
      case Not(inner) => a, b := ParamMatters(inner, i);
    }
  }

  /** Restarting the count never makes a number larger. */
  lemma {:induction false} NumbersBelow(node: QueryNode, base: nat)
    ensures forall i :: 0 <= i < |CodeNumbers(node, base)| ==> CodeNumbers(node, base)[i] <= base + i + 1
  {
    match node
    case Filter(term) =>
    case And(l, r) =>
      NumbersBelow(l, base);
      NumbersBelow(r, base + |LiveParams(l)|);
    case Or(l, r) =>
      NumbersBelow(l, 0);
      NumbersBelow(r, 0);
    case Not(inner) => NumbersBelow(inner, 0);
  }

  /** So if it changes any, some parameter is named by none: the last whose number changed. */
  lemma {:induction false} NotNamed(ks: seq<nat>, n: nat) returns (i: nat)
    requires n <= |ks| && forall j :: 0 <= j < |ks| ==> ks[j] <= j + 1
    requires forall j :: n <= j < |ks| ==> ks[j] == j + 1
    requires exists j :: 0 <= j < n && ks[j] != j + 1
    ensures i < |ks| && forall j :: 0 <= j < |ks| ==> ks[j] != i + 1
  {
    if ks[n - 1] != n {
      i := n - 1;
    } else {
      i := NotNamed(ks, n - 1);
    }
  }

  lemma NotStraight(ks: seq<nat>)
    requires ks != Straight(0, |ks|)
    ensures exists j :: 0 <= j < |ks| && ks[j] != j + 1
  {
    var straight := Straight(0, |ks|);
    assert exists j :: 0 <= j < |ks| && ks[j] != straight[j];
  }

  predicate Different(texts: seq<string>) {
    forall i, j :: 0 <= i < j < |texts| ==> texts[i] != texts[j]
  }

  function CodeTexts(node: QueryNode): (texts: seq<string>)
    ensures |texts| == |LiveParams(node)|
  {
    CodeNumbersWithin(node, 0);
    Pick(LiveParams(node), CodeNumbers(node, 0))
  }

  lemma TextUnused(node: QueryNode, i: nat)
    requires Different(LiveParams(node)) && i < |LiveParams(node)|
    requires forall j :: 0 <= j < |CodeNumbers(node, 0)| ==> CodeNumbers(node, 0)[j] != i + 1
    ensures Bound(LiveParams(node)[i]) !in Bounds(CodeTexts(node))
  {
    CodeNumbersWithin(node, 0);
    var ps, ks := LiveParams(node), CodeNumbers(node, 0);
    var args := Bounds(CodeTexts(node));
    forall j | 0 <= j < |args| ensures args[j] != Bound(ps[i]) {
      assert args[j] == Bound(ps[ks[j] - 1]);
    }
  }

  /** Where a number names the wrong text, some row tells the clause from the tree. */
  lemma WrongTextDiffers(node: QueryNode) returns (row: Row)
    requires ReadOnce(node) && NoFalse(node) && Different(LiveParams(node)) && !Aligned(node, 0)
    ensures EvalOr(ClauseTree(Build(node, Bounds(CodeTexts(node)), false), false), row) != Meaning(node, row)
  {
    AlignedNumbers(node, 0);
    NumbersBelow(node, 0);
    NotStraight(CodeNumbers(node, 0));
    var i := NotNamed(CodeNumbers(node, 0), |CodeNumbers(node, 0)|);
    TextUnused(node, i);
    var args := Bounds(CodeTexts(node));
    var a, b := ParamMatters(node, i);
    KeysUseArgs(node, args);
    assert Agree(Keys(node, args), a, b);
    hide Keys, Build, ClauseTree, Meaning, CodeTexts;
    ClauseAgree(node, args, a, b);
    row := if EvalOr(ClauseTree(Build(node, args, false), false), a) != Meaning(node, a) then a else b;
  }

  // ─── The exact condition ───

  /** The tree compares with different texts everywhere, and with nothing twice. */
  predicate AllDifferent(node: QueryNode) {
    Different(LiveParams(node)) && ReadOnce(node)
  }

  ghost predicate MeansTree(node: QueryNode)
    requires Read(Clause(node)).Accept?
  {
    forall row: Row :: Answer(Clause(node), LiveParams(node), row) == Meaning(node, row)
  }

  lemma AlignedTexts(node: QueryNode)
    requires Aligned(node, 0)
    ensures CodeTexts(node) == LiveParams(node)
  {
    AlignedNumbers(node, 0);
    PickStraight(LiveParams(node));
  }

  lemma BoundAnswer(node: QueryNode, row: Row)
    ensures Read(Clause(node)).Accept?
    ensures Answer(Clause(node), LiveParams(node), row) ==
      EvalOr(ClauseTree(Build(node, Bounds(CodeTexts(node)), false), false), row)
  {
    BoundClause(node);
    hide Read, Clause, Build, ClauseTree, LiveParams, CodeNumbers, BindOr, EvalOr;
  }

  lemma SomeRowDiffers(node: QueryNode) returns (row: Row)
    requires AllDifferent(node) && NoFalse(node) && !(Aligned(node, 0) && WordsAlone(node))
    ensures Read(Clause(node)).Accept?
    ensures Answer(Clause(node), LiveParams(node), row) != Meaning(node, row)
  {
    hide Read, Clause, Build, Answer, Meaning, LiveParams, CodeTexts, EvalOr;
    if !Aligned(node, 0) {
      row := WrongTextDiffers(node);
      BoundAnswer(node, row);
    } else {
      AlignedTexts(node);
      VacuousAlone(node);
      row := Differs(node);
      BoundAnswer(node, row);
    }
  }

  lemma {:induction false} VacuousAlone(node: QueryNode)
    ensures Vacuous(node) ==> WordsAlone(node)
  {
    match node
    case And(l, r) =>
      VacuousAlone(l);
      VacuousAlone(r);
    case Not(inner) => VacuousAlone(inner);
    case _ =>
  }

  /**
   For trees that compare with different texts everywhere and hold no impossible
   port: the emitted clause means the tree on every row if and only if the tree
   is aligned and no bare word shares a conjunction.
   */
  lemma MeaningExactly(node: QueryNode)
    requires AllDifferent(node) && NoFalse(node)
    ensures Read(Clause(node)).Accept?
    ensures MeansTree(node) <==> Aligned(node, 0) && WordsAlone(node)
  {
    BoundClause(node);
    hide Read, Clause, Answer, Meaning, LiveParams, AllDifferent, NoFalse, Aligned, WordsAlone, Resolves;
    if Aligned(node, 0) && WordsAlone(node) {
      AlignedResolves(node);
      forall row: Row ensures Answer(Clause(node), LiveParams(node), row) == Meaning(node, row) {
        CompilationMeaning(node, row);
      }
    } else {
      var row := SomeRowDiffers(node);
    }
  }

  // ─── Why the leaves must differ ───

  lemma Absorbs(f: Tri, l: Tri, x: Tri, y: Tri)
    ensures var front, rest := Or3(f, x), Or3(y, l);
      Or3(front, l) == Or3(f, rest) ==> Or3(Or3(front, And3(l, f)), rest) == Or3(front, l)
  {
  }

  lemma FirstOf(d: Disj, row: Row)
    requires d != []
    ensures EvalOr(d, row) == Or3(EvalAnd(d[0].units, row), EvalOr(d[1..], row))
  {
  }

  lemma LastOf(d: Disj, row: Row)
    requires d != []
    ensures EvalOr(d, row) == Or3(EvalOr(d[..|d| - 1], row), EvalAnd(d[|d| - 1].units, row))
  {
    assert d == d[..|d| - 1] + [d[|d| - 1]];
    EvalOrAppend(d[..|d| - 1], [d[|d| - 1]], row);
    OneConj(d[|d| - 1].units, row);
  }

  /** Joining a chain to itself by AND leaves its value as it is. */
  lemma DoubledChain(d: Disj, row: Row)
    requires |d| >= 2
    ensures EvalOr(GlueTwo(d, d), row) == EvalOr(d, row)
  {
    hide EvalOr, EvalAnd;
    var n := |d| - 1;
    var front, rest := d[..n], d[1..];
    var mid := Conj(d[n].units + d[0].units);
    FirstOf(d, row);
    LastOf(d, row);
    FirstOf(front, row);
    LastOf(rest, row);
    EvalOrAppend(front, [mid], row);
    EvalOrAppend(front + [mid], rest, row);
    EvalAndAppend(d[n].units, d[0].units, row);
    OneConj(mid.units, row);
    Absorbs(EvalAnd(d[0].units, row), EvalAnd(d[n].units, row), EvalOr(front[1..], row), EvalOr(rest[..n - 1], row));
  }

  lemma TwoConditions(a: Disj, b: Disj)
    requires a != [] && b != []
    ensures Solid([a, b]) && GlueAll([a, b]) == GlueTwo(a, b)
  {
    assert [a, b][1..] == [b];
  }

  /**
   `w w`, any word: the word shares its conjunction, with itself, and yet the
   clause means the tree on every row.
   */
  lemma RepeatedWord(w: string, row: Row)
    requires w != ""
    ensures var node := And(Word(w), Word(w));
      && !WordsAlone(node) && !ReadOnce(node)
      && Read(Clause(node)).Accept?
      && Answer(Clause(node), LiveParams(node), row) == Meaning(node, row)
  {
    var word := Word(w);
    var node := And(word, word);
    var d := WordAlternatives(FULL_TEXT_COLUMNS, Bound(w));
    RepeatedTree(w);
    BoundAnswer(node, row);
    EvalWords(FULL_TEXT_COLUMNS, Bound(w), row);
    TwoConditions(d, d);
    DoubledChain(d, row);
    assert Meaning(word, row) == TermMeaning(word.term, row) == AnyColumn(FULL_TEXT_COLUMNS, Bound(w), row);
    assert Meaning(node, row) == And3(Meaning(word, row), Meaning(word, row));
    assert Chains(word) == [true] && Chains(node) == [true, true];
    assert Key(WordIn(FULL_TEXT_COLUMNS[0]), Bound(w)) in Right(word);
  }

  lemma RepeatedTree(w: string)
    requires w != ""
    ensures var node := And(Word(w), Word(w));
      var d := WordAlternatives(FULL_TEXT_COLUMNS, Bound(w));
      CodeTexts(node) == [w, w] && |LiveParams(node)| == 2
      && Build(node, Bounds(CodeTexts(node)), false) == [d, d] && Solid([d, d])
  {
    var word := Word(w);
    assert LiveParams(word) == [w] && CodeNumbers(word, 0) == [1] && CodeNumbers(word, 1) == [2];
    AndNumbers(word, word, 0);
    assert LiveParams(And(word, word)) == [w, w];
    assert CodeNumbers(And(word, word), 0) == [1, 2];
    assert CodeTexts(And(word, word)) == [w, w];
    assert Bounds([w, w]) == [Bound(w)] + [Bound(w)];
    BuildAnd(word, word, [Bound(w)], [Bound(w)], false);
  }

  function Equal(key: string, value: string): QueryNode {
    Filter(FilterTerm(key, Equals, value, false))
  }

  /** `x.equals:a NOT (y.equals:b y.equals:a)` */
  function Swapped(a: string, b: string): QueryNode {
    And(Equal("x", a), Not(And(Equal("y", b), Equal("y", a))))
  }

  lemma EqualBuild(key: string, value: string, arg: Arg)
    requires key == "x" || key == "y"
    ensures LiveParams(Equal(key, value)) == [value]
    ensures Build(Equal(key, value), [arg], false) == [[Conj([Atom(TextOp(key, Equals), arg)])]]
    ensures forall base: nat :: CodeNumbers(Equal(key, value), base) == [base + 1]
    ensures Chains(Equal(key, value)) == [false]
  {
  }

  lemma SwappedNumbers(a: string, b: string)
    ensures var node := Swapped(a, b);
      && LiveParams(node) == [a, b, a] && CodeNumbers(node, 0) == [1, 1, 2] && CodeTexts(node) == [a, a, b]
      && Chains(node) == [false, false]
  {
    EqualBuild("x", a, NoArg);
    EqualBuild("y", b, NoArg);
    EqualBuild("y", a, NoArg);
    var both := And(Equal("y", b), Equal("y", a));
    assert LiveParams(both) == [b] + [a];
    AndNumbers(Equal("y", b), Equal("y", a), 0);
    AndNumbers(Equal("x", a), Not(both), 0);
    assert CodeNumbers(both, 0) == [1, 2];
    assert CodeNumbers(Not(both), 1) == [1, 2];
    assert LiveParams(Swapped(a, b)) == [a] + [b, a];
    assert CodeNumbers(Swapped(a, b), 0) == [1] + [1, 2];
  }

  lemma SwappedBuild(a: string, b: string)
    ensures |LiveParams(Swapped(a, b))| == 3
    ensures var x, y, z := Conj([Atom(TextOp("x", Equals), Bound(a))]), Conj([Atom(TextOp("y", Equals), Bound(a))]),
                           Conj([Atom(TextOp("y", Equals), Bound(b))]);
      Build(Swapped(a, b), [Bound(a), Bound(a), Bound(b)], false) == [[x], NotCondition([[y], [z]], false)]
  {
    EqualBuild("x", a, Bound(a));
    EqualBuild("y", b, Bound(a));
    EqualBuild("y", a, Bound(b));
    var both := And(Equal("y", b), Equal("y", a));
    BuildAnd(Equal("y", b), Equal("y", a), [Bound(a)], [Bound(b)], false);
    assert [Bound(a)] + [Bound(b)] == [Bound(a), Bound(b)];
    BuildAnd(Equal("x", a), Not(both), [Bound(a)], [Bound(a), Bound(b)], false);
    assert [Bound(a)] + [Bound(a), Bound(b)] == [Bound(a), Bound(a), Bound(b)];
  }

  /** A conjunction of single comparisons. */
  lemma TwoSingles(u: Unit, v: Unit, row: Row)
    ensures var cs := [[Conj([u])], [Conj([v])]];
      Solid(cs) && EvalOr(GlueAll(cs), row) == And3(EvalUnit(u, row), EvalUnit(v, row))
  {
    var a, b: Disj := [Conj([u])], [Conj([v])];
    TwoConditions(a, b);
    assert GlueTwo(a, b) == [Conj([u] + [v])];
    OneConj([u] + [v], row);
    EvalAndAppend([u], [v], row);
    EvalOne(u, row);
    EvalOne(v, row);
    OneConj([u], row);
    OneConj([v], row);
  }

  /**
   Leaves that differ are not enough: with two texts, one of them twice, the
   restarted numbers name the wrong texts, and yet the clause means the tree on
   every row, because the wrong texts only trade places.
   */
  lemma SwappedTexts(a: string, b: string, row: Row)
    requires a != b
    ensures var node := Swapped(a, b);
      && ReadOnce(node) && NoFalse(node) && !Aligned(node, 0)
      && Read(Clause(node)).Accept?
      && Answer(Clause(node), LiveParams(node), row) == Meaning(node, row)
  {
    var node := Swapped(a, b);
    SwappedNumbers(a, b);
    SwappedBuild(a, b);
    AlignedNumbers(node, 0);
    assert Straight(0, 3)[1] == 2;
    BoundAnswer(node, row);
    assert Bounds([a, a, b]) == [Bound(a), Bound(a), Bound(b)];
    SwappedValue(a, b, row);
    SwappedMeaning(a, b, row);
    SwappedReadOnce(a, b);
  }

  lemma SwappedValue(a: string, b: string, row: Row)
    ensures var y, z := Atom(TextOp("y", Equals), Bound(a)), Atom(TextOp("y", Equals), Bound(b));
      var cs := [[Conj([Atom(TextOp("x", Equals), Bound(a))])], NotCondition([[Conj([y])], [Conj([z])]], false)];
      Solid(cs) && EvalOr(ClauseTree(cs, false), row) ==
        And3(row(TextOp("x", Equals), Bound(a)),
             Not3(And3(row(TextOp("y", Equals), Bound(a)), row(TextOp("y", Equals), Bound(b)))))
  {
    var x, y, z := Atom(TextOp("x", Equals), Bound(a)), Atom(TextOp("y", Equals), Bound(a)), Atom(TextOp("y", Equals), Bound(b));
    var inner := [[Conj([y])], [Conj([z])]];
    TwoSingles(y, z, row);
    ConditionEval(inner, inner, row);
    TwoSingles(x, Negated(Group(Glue(inner, false))), row);
    EvalOne(Negated(Group(Glue(inner, false))), row);
  }

  lemma SwappedMeaning(a: string, b: string, row: Row)
    ensures Meaning(Swapped(a, b), row) ==
      And3(row(TextOp("x", Equals), Bound(a)),
           Not3(And3(row(TextOp("y", Equals), Bound(b)), row(TextOp("y", Equals), Bound(a)))))
  {
    var l, p, q := Equal("x", a), Equal("y", b), Equal("y", a);
    assert Meaning(l, row) == TermMeaning(l.term, row);
    assert Meaning(p, row) == TermMeaning(p.term, row);
    assert Meaning(q, row) == TermMeaning(q.term, row);
    assert Meaning(And(p, q), row) == And3(Meaning(p, row), Meaning(q, row));
    assert Meaning(Not(And(p, q)), row) == Not3(Meaning(And(p, q), row));
  }

  lemma SwappedReadOnce(a: string, b: string)
    requires a != b
    ensures ReadOnce(Swapped(a, b)) && NoFalse(Swapped(a, b))
  {
    var l, p, q := Equal("x", a), Equal("y", b), Equal("y", a);
    assert Right(l) == {Key(TextOp("x", Equals), Bound(a))};
    assert Right(p) == {Key(TextOp("y", Equals), Bound(b))};
    assert Right(q) == {Key(TextOp("y", Equals), Bound(a))};
    assert !Vacuous(p) && !Vacuous(And(p, q));
    assert Right(And(p, q)) == Right(p) + Right(q);
    assert Right(Not(And(p, q))) == Right(And(p, q));
    assert NoFalse(l) && NoFalse(p) && NoFalse(q) && NoFalse(And(p, q)) && NoFalse(Not(And(p, q)));
    hide Right, Vacuous, NoFalse, Meaning;
    assert ReadOnce(p) && ReadOnce(q);
    assert ReadOnce(And(p, q));
    assert ReadOnce(Not(And(p, q)));
  }
}
