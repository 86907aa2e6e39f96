/**
 The SQL generator of src/query.rs, lines 297-583: `compile_to_sql`,
 `compile_node` and the leaf compilers, and a reference compiler to judge it by.
 */
module QueryCompiler {
  import opened Query
  import opened SqlText
  import opened Text

  // ─── Leaves ───

  datatype FilterKind = Tag | Port | Country | FullText | JsonContains | JsonText

  function Classify(term: FilterTerm): FilterKind {
    if term.key == "" then FullText
    else if term.key == "tag" then Tag
    else if term.key == "port" then Port
    else if term.key == "country" then Country
    else if term.op == Default then JsonContains
    else JsonText
  }

  const FULL_TEXT_COLUMNS: seq<string> := [
    "data->>'banner'", "data->'http'->>'title'", "data->'http'->>'server'",
    "data->>'product'", "data->>'version'", "data->>'kind'"
  ]

  function WordAlternatives(columns: seq<string>, arg: Arg): (d: Disj)
    ensures |d| == |columns|
  {
    if columns == [] then []
    else [Conj([Atom(WordIn(columns[0]), arg)])] + WordAlternatives(columns[1..], arg)
  }

  /** A filter with neither key nor value compiles to nothing. */
  predicate Dead(term: FilterTerm) {
    term.key == "" && term.value == ""
  }

  /** Whether a live filter pushes a parameter; `port:` does so only for a valid port. */
  predicate HasParam(term: FilterTerm) {
    match Classify(term)
    case Tag => false
    case Port => ParseU16(term.value).Some?
    case Country => true
    case FullText => true
    case JsonContains => false
    case JsonText => true
  }

  function ParamText(term: FilterTerm): string
    requires HasParam(term)
  {
    match Classify(term)
    case Port => Show(ParseU16(term.value).value)
    case Country => Upper(term.value)
    case _ => term.value
  }

  /** The comparisons a live filter emits, before its own negation. */
  function LeafBody(term: FilterTerm, arg: Arg): Disj {
    match Classify(term)
    case Tag => [Conj([Atom(HasTag(term.value), NoArg)])]
    case Port =>
      if HasParam(term) then [Conj([Atom(PortIs, arg)])] else [Conj([Atom(FalseLit, NoArg)])]
    case Country => [Conj([Atom(CountryIs, arg)])]
    case FullText => WordAlternatives(FULL_TEXT_COLUMNS, arg)
    case JsonContains => [Conj([Atom(HasField(term.key, term.value), NoArg)])]
    case JsonText => [Conj([Atom(TextOp(term.key, term.op), arg)])]
  }

  /** The one comparison of a leaf that is not a bare word. */
  function LeafPredicate(term: FilterTerm): Predicate
    requires Classify(term) != FullText
  {
    match Classify(term)
    case Tag => HasTag(term.value)
    case Port => if HasParam(term) then PortIs else FalseLit
    case Country => CountryIs
    case JsonContains => HasField(term.key, term.value)
    case JsonText => TextOp(term.key, term.op)
  }

  lemma LeafBodySingle(term: FilterTerm, arg: Arg)
    requires Classify(term) != FullText
    ensures LeafBody(term, arg) == [Conj([Atom(LeafPredicate(term), if HasParam(term) then arg else NoArg)])]
  {
  }

  function LeafCondition(term: FilterTerm, arg: Arg): Disj {
    if term.negate then [Conj([Negated(Group(LeafBody(term, arg)))])] else LeafBody(term, arg)
  }

  // ─── What a tree means ───

  /** Nodes that emit no condition. */
  predicate Vacuous(node: QueryNode) {
    match node
    case Filter(term) => Dead(term)
    case And(l, r) => Vacuous(l) && Vacuous(r)
    case Or(l, r) => Vacuous(l) || Vacuous(r)
    case Not(inner) => Vacuous(inner)
  }

  function TermMeaning(term: FilterTerm, row: Row): Tri {
    var arg := if HasParam(term) then Bound(ParamText(term)) else NoArg;
    var body := match Classify(term)
      case Tag => row(HasTag(term.value), arg)
      case Port => if HasParam(term) then row(PortIs, arg) else F
      case Country => row(CountryIs, arg)
      case FullText => AnyColumn(FULL_TEXT_COLUMNS, arg, row)
      case JsonContains => row(HasField(term.key, term.value), arg)
      case JsonText => row(TextOp(term.key, term.op), arg);
    if term.negate then Not3(body) else body
  }

  function AnyColumn(columns: seq<string>, arg: Arg, row: Row): Tri {
    if columns == [] then F else Or3(row(WordIn(columns[0]), arg), AnyColumn(columns[1..], arg, row))
  }

  /** The answer a query tree asks for; a vacuous node asks for nothing and is true. */
  function Meaning(node: QueryNode, row: Row): Tri {
    if Vacuous(node) then T
    else match node
      case Filter(term) => TermMeaning(term, row)
      case And(l, r) => And3(Meaning(l, row), Meaning(r, row))
      case Or(l, r) => Or3(Meaning(l, row), Meaning(r, row))
      case Not(inner) => Not3(Meaning(inner, row))
  }

  /** The values a tree compares with, left to right, leaving out dropped branches. */
  function LiveParams(node: QueryNode): (ps: seq<string>)
    ensures Vacuous(node) ==> ps == []
  {
    match node
    case Filter(term) => if !Dead(term) && HasParam(term) then [ParamText(term)] else []
    case And(l, r) => LiveParams(l) + LiveParams(r)
    case Or(l, r) => if Vacuous(node) then [] else LiveParams(l) + LiveParams(r)
    case Not(inner) => LiveParams(inner)
  }

  // ─── The conditions emitted for a tree ───

  predicate Solid(cs: seq<Disj>) {
    forall i :: 0 <= i < |cs| ==> cs[i] != []
  }

  predicate AllWf(cs: seq<Disj>) {
    forall i :: 0 <= i < |cs| ==> WfOr(cs[i])
  }

  /** Texts joined with ` AND `, as a tree: nothing protects an OR inside them. */
  function GlueAll(cs: seq<Disj>): (d: Disj)
    requires cs != [] && Solid(cs)
    ensures d != []
  {
    if |cs| == 1 then cs[0] else GlueTwo(cs[0], GlueAll(cs[1..]))
  }

  /** What a join should be: parentheses around every alternative with an OR of its own. */
  function WrapAll(cs: seq<Disj>): seq<Unit> {
    if cs == [] then []
    else (if |cs[0]| == 1 then cs[0][0].units else [Group(cs[0])]) + WrapAll(cs[1..])
  }

  function Glue(cs: seq<Disj>, wrap: bool): (d: Disj)
    requires cs != [] && Solid(cs)
    ensures d != []
  {
    if |cs| == 1 then cs[0] else if wrap then [Conj(WrapAll(cs))] else GlueAll(cs)
  }

  /** One side of an OR: a single condition goes in bare, a join in parentheses. */
  function Side(cs: seq<Disj>, wrap: bool): (d: Disj)
    requires cs != [] && Solid(cs)
    ensures d != []
  {
    if |cs| == 1 then cs[0] else [Conj([Group(Glue(cs, wrap))])]
  }

  function OrCondition(left: seq<Disj>, right: seq<Disj>, wrap: bool): Disj
    requires left != [] && right != [] && Solid(left) && Solid(right)
  {
    [Conj([Group(Side(left, wrap) + Side(right, wrap))])]
  }

  function NotCondition(body: seq<Disj>, wrap: bool): Disj
    requires body != [] && Solid(body)
  {
    [Conj([Negated(Group(Glue(body, wrap)))])]
  }

  /**
   The conditions of a tree whose live leaves, left to right, compare with
   `args`. Without `wrap` they are the ones the code emits; with it, the ones
   of the reference compiler.
   */
  function Build(node: QueryNode, args: seq<Arg>, wrap: bool): (cs: seq<Disj>)
    requires |args| == |LiveParams(node)|
    ensures (cs == []) == Vacuous(node)
    ensures Solid(cs)
  {
    match node
    case Filter(term) =>
      if Dead(term) then [] else [LeafCondition(term, if args == [] then NoArg else args[0])]
    case And(l, r) =>
      var n := |LiveParams(l)|;
      Build(l, args[..n], wrap) + Build(r, args[n..], wrap)
    case Or(l, r) =>
      if Vacuous(node) then []
      else
        var n := |LiveParams(l)|;
        [OrCondition(Build(l, args[..n], wrap), Build(r, args[n..], wrap), wrap)]
    case Not(inner) =>
      if Vacuous(node) then []
      else [NotCondition(Build(inner, args, wrap), wrap)]
  }

  lemma BuildAnd(l: QueryNode, r: QueryNode, a: seq<Arg>, b: seq<Arg>, wrap: bool)
    requires |a| == |LiveParams(l)| && |b| == |LiveParams(r)|
    ensures Build(And(l, r), a + b, wrap) == Build(l, a, wrap) + Build(r, b, wrap)
  {
    assert (a + b)[..|a|] == a && (a + b)[|a|..] == b;
  }

  lemma BuildOr(l: QueryNode, r: QueryNode, a: seq<Arg>, b: seq<Arg>, wrap: bool)
    requires !Vacuous(Or(l, r))
    requires |a| == |LiveParams(l)| && |b| == |LiveParams(r)|
    ensures Build(Or(l, r), a + b, wrap) == [OrCondition(Build(l, a, wrap), Build(r, b, wrap), wrap)]
  {
    assert (a + b)[..|a|] == a && (a + b)[|a|..] == b;
  }

  /**
   The placeholder number of each live leaf. Every OR side and every NOT body
   starts a parameter vector of its own, so the count restarts at 1 there.
   */
  function CodeNumbers(node: QueryNode, base: nat): (ks: seq<nat>)
    ensures |ks| == |LiveParams(node)|
  {
    match node
    case Filter(term) => if !Dead(term) && HasParam(term) then [base + 1] else []
    case And(l, r) =>
      var left := CodeNumbers(l, base);
      left + CodeNumbers(r, base + |left|)
    case Or(l, r) => if Vacuous(node) then [] else CodeNumbers(l, 0) + CodeNumbers(r, 0)
    case Not(inner) => CodeNumbers(inner, 0)
  }

  lemma {:induction false} CodeNumbersWithin(node: QueryNode, base: nat)
    ensures forall i :: 0 <= i < |CodeNumbers(node, base)| ==>
      1 <= CodeNumbers(node, base)[i] <= base + |LiveParams(node)|
  {
    match node
    case Filter(term) =>
    case And(l, r) =>
      CodeNumbersWithin(l, base);
      CodeNumbersWithin(r, base + |LiveParams(l)|);
    case Or(l, r) =>
      CodeNumbersWithin(l, 0);
      CodeNumbersWithin(r, 0);
    case Not(inner) =>
      CodeNumbersWithin(inner, 0);
  }

  /** Placeholders counted on, as a compiler that renumbers on merge would. */
  function Straight(base: nat, n: nat): seq<nat> {
    seq(n, i requires 0 <= i < n => base + 1 + i)
  }

  function Holes(ks: seq<nat>): (args: seq<Arg>)
    ensures |args| == |ks|
  {
    seq(|ks|, i requires 0 <= i < |ks| => Hole(ks[i]))
  }

  function Bounds(ps: seq<string>): (args: seq<Arg>)
    ensures |args| == |ps|
  {
    seq(|ps|, i requires 0 <= i < |ps| => Bound(ps[i]))
  }

  function ClauseTree(cs: seq<Disj>, wrap: bool): Disj
    requires Solid(cs)
  {
    if cs == [] then [Conj([Atom(TrueLit, NoArg)])] else Glue(cs, wrap)
  }

  /** The WHERE clause the code emits, and the one the reference compiler emits. */
  function Clause(node: QueryNode): seq<SqlToken> {
    PrintOr(ClauseTree(Build(node, Holes(CodeNumbers(node, 0)), false), false))
  }

  function RefClause(node: QueryNode): seq<SqlToken> {
    PrintOr(ClauseTree(Build(node, Holes(Straight(0, |LiveParams(node)|)), true), true))
  }

  // ─── When the code agrees with the reference ───

  /** For each emitted condition, whether it is an unparenthesised chain of ORs. */
  function Chains(node: QueryNode): (bs: seq<bool>)
    ensures (bs == []) == Vacuous(node)
  {
    match node
    case Filter(term) =>
      if Dead(term) then [] else [Classify(term) == FullText && !term.negate]
    case And(l, r) => Chains(l) + Chains(r)
    case Or(l, r) => if Vacuous(node) then [] else [false]
    case Not(inner) => if Vacuous(node) then [] else [false]
  }

  /** No bare word is joined by AND to another condition, here or in a nested join. */
  predicate WordsAlone(node: QueryNode)
    decreases node, 1
  {
    (|Chains(node)| <= 1 || true !in Chains(node)) && InnerWordsAlone(node)
  }

  predicate InnerWordsAlone(node: QueryNode)
    decreases node, 0
  {
    match node
    case Filter(_) => true
    case And(l, r) => InnerWordsAlone(l) && InnerWordsAlone(r)
    case Or(l, r) => Vacuous(node) || (WordsAlone(l) && WordsAlone(r))
    case Not(inner) => Vacuous(node) || WordsAlone(inner)
  }

  /**
   With `before` parameters to the left of the node: an OR or NOT that holds a
   parameter has none before it, and no OR has parameters on both sides.
   */
  predicate Aligned(node: QueryNode, before: nat) {
    match node
    case Filter(_) => true
    case And(l, r) => Aligned(l, before) && Aligned(r, before + |LiveParams(l)|)
    case Or(l, r) =>
      || Vacuous(node)
      || (&& (LiveParams(node) == [] || before == 0)
          && (LiveParams(l) == [] || LiveParams(r) == [])
          && Aligned(l, before)
          && Aligned(r, before + |LiveParams(l)|))
    case Not(inner) => (LiveParams(inner) == [] || before == 0) && Aligned(inner, before)
  }

  /** The texts that placeholders `ks` name. */
  function Pick(params: seq<string>, ks: seq<nat>): (texts: seq<string>)
    requires forall i :: 0 <= i < |ks| ==> 1 <= ks[i] <= |params|
    ensures |texts| == |ks|
  {
    seq(|ks|, i requires 0 <= i < |ks| => params[ks[i] - 1])
  }

  /** Where the restarted count points at another leaf, that leaf has the same text. */
  predicate Resolves(node: QueryNode) {
    CodeNumbersWithin(node, 0);
    Pick(LiveParams(node), CodeNumbers(node, 0)) == LiveParams(node)
  }

  // ─── Shape of the conditions ───

  predicate ShapedOne(c: Disj, chain: bool) {
    && WfOr(c)
    && |c| == (if chain then 6 else 1)
    && (!chain ==> |c[0].units| == 1)
  }

  predicate Shaped(cs: seq<Disj>, chains: seq<bool>) {
    |cs| == |chains| && forall i :: 0 <= i < |cs| ==> ShapedOne(cs[i], chains[i])
  }

  lemma {:induction false} WordAlternativesWf(columns: seq<string>, arg: Arg)
    ensures forall i :: 0 <= i < |columns| ==>
      WordAlternatives(columns, arg)[i] == Conj([Atom(WordIn(columns[i]), arg)])
  {
    if columns != [] {
      WordAlternativesWf(columns[1..], arg);
    }
  }

  lemma AtomsWf(d: Disj)
    requires d != []
    requires forall i :: 0 <= i < |d| ==> |d[i].units| == 1 && d[i].units[0].Atom?
    ensures WfOr(d)
  {
    forall i | 0 <= i < |d| ensures WfAnd(d[i].units) {
      assert WfUnit(d[i].units[0]);
    }
  }

  lemma GroupWf(d: Disj)
    requires WfOr(d)
    ensures WfOr([Conj([Group(d)])])
    ensures WfOr([Conj([Negated(Group(d))])])
  {
    assert WfUnit(Group(d)) && WfUnit(Negated(Group(d)));
    assert WfAnd([Group(d)]) && WfAnd([Negated(Group(d))]);
  }

  lemma AppendWf(a: Disj, b: Disj)
    requires WfOr(a) && WfOr(b)
    ensures WfOr(a + b)
  {
    assert forall i :: 0 <= i < |b| ==> (a + b)[|a| + i] == b[i];
  }

  lemma LeafShaped(term: FilterTerm, arg: Arg)
    ensures ShapedOne(LeafCondition(term, arg), Classify(term) == FullText && !term.negate)
  {
    WordAlternativesWf(FULL_TEXT_COLUMNS, arg);
    var body := LeafBody(term, arg);
    assert forall i :: 0 <= i < |body| ==> |body[i].units| == 1 && body[i].units[0].Atom?;
    AtomsWf(body);
    GroupWf(body);
  }

  lemma {:induction false} GlueAllWf(cs: seq<Disj>)
    requires cs != [] && AllWf(cs)
    ensures WfOr(GlueAll(cs))
    ensures PrintOr(GlueAll(cs)) == Join(Texts(cs), AndKw)
  {
    if |cs| > 1 {
      GlueAllWf(cs[1..]);
      PrintGlueTwo(cs[0], GlueAll(cs[1..]));
      assert Texts(cs)[1..] == Texts(cs[1..]);
    }
  }

  lemma {:induction false} WrapAllWf(cs: seq<Disj>)
    requires AllWf(cs)
    ensures forall i :: 0 <= i < |WrapAll(cs)| ==> WfUnit(WrapAll(cs)[i])
    ensures |WrapAll(cs)| >= |cs|
  {
    if cs != [] {
      WrapAllWf(cs[1..]);
      assert WfAnd(cs[0][0].units);
      assert WfUnit(Group(cs[0]));
    }
  }

  lemma GlueWf(cs: seq<Disj>, wrap: bool)
    requires cs != [] && AllWf(cs)
    ensures WfOr(Glue(cs, wrap)) && WfOr(Side(cs, wrap))
  {
    GlueAllWf(cs);
    WrapAllWf(cs);
    var g := Glue(cs, wrap);
    if |cs| > 1 && wrap {
      assert WfAnd(g[0].units);
    }
    GroupWf(g);
  }

  lemma {:induction false} BuildShaped(node: QueryNode, args: seq<Arg>, wrap: bool)
    requires |args| == |LiveParams(node)|
    ensures Shaped(Build(node, args, wrap), Chains(node))
  {
    match node
    case Filter(term) =>
      LeafShaped(term, if args == [] then NoArg else args[0]);
    case And(l, r) =>
      var n := |LiveParams(l)|;
      BuildShaped(l, args[..n], wrap);
      BuildShaped(r, args[n..], wrap);
    case Or(l, r) =>
      if !Vacuous(node) {
        var n := |LiveParams(l)|;
        BuildShaped(l, args[..n], wrap);
        BuildShaped(r, args[n..], wrap);
        GlueWf(Build(l, args[..n], wrap), wrap);
        GlueWf(Build(r, args[n..], wrap), wrap);
        var a, b := Side(Build(l, args[..n], wrap), wrap), Side(Build(r, args[n..], wrap), wrap);
        AppendWf(a, b);
        GroupWf(a + b);
      }
    case Not(inner) =>
      if !Vacuous(node) {
        BuildShaped(inner, args, wrap);
        GlueWf(Build(inner, args, wrap), wrap);
        GroupWf(Glue(Build(inner, args, wrap), wrap));
      }
  }

  lemma ClauseTreeWf(node: QueryNode, args: seq<Arg>, wrap: bool)
    requires |args| == |LiveParams(node)|
    ensures WfOr(ClauseTree(Build(node, args, wrap), wrap))
  {
    BuildShaped(node, args, wrap);
    if !Vacuous(node) {
      GlueWf(Build(node, args, wrap), wrap);
    }
  }

  // ─── The generator ───

  function Texts(cs: seq<Disj>): (texts: seq<seq<SqlToken>>)
    ensures |texts| == |cs|
  {
    seq(|cs|, i requires 0 <= i < |cs| => PrintOr(cs[i]))
  }

  lemma TextsAppend(a: seq<Disj>, b: seq<Disj>)
    ensures Texts(a + b) == Texts(a) + Texts(b)
  {
  }

  lemma HolesAppend(a: seq<nat>, b: seq<nat>)
    ensures Holes(a + b) == Holes(a) + Holes(b)
  {
  }

  /** The conditions the code emits for a node met with `base` parameters pushed. */
  function Emitted(node: QueryNode, base: nat): seq<Disj> {
    Build(node, Holes(CodeNumbers(node, base)), false)
  }

  lemma AndNumbers(l: QueryNode, r: QueryNode, base: nat)
    ensures CodeNumbers(And(l, r), base)
         == CodeNumbers(l, base) + CodeNumbers(r, base + |LiveParams(l)|)
  {
  }

  lemma EmittedAnd(l: QueryNode, r: QueryNode, base: nat)
    ensures Emitted(And(l, r), base) == Emitted(l, base) + Emitted(r, base + |LiveParams(l)|)
  {
    AndNumbers(l, r, base);
    hide Build, Holes, LiveParams, CodeNumbers;
    var a, b := CodeNumbers(l, base), CodeNumbers(r, base + |LiveParams(l)|);
    HolesAppend(a, b);
    BuildAnd(l, r, Holes(a), Holes(b), false);
  }

  lemma EmittedOr(l: QueryNode, r: QueryNode, base: nat)
    requires !Vacuous(Or(l, r))
    ensures Emitted(Or(l, r), base) == [OrCondition(Emitted(l, 0), Emitted(r, 0), false)]
  {
    hide Build;
    HolesAppend(CodeNumbers(l, 0), CodeNumbers(r, 0));
    BuildOr(l, r, Holes(CodeNumbers(l, 0)), Holes(CodeNumbers(r, 0)), false);
  }

  /** What a leaf met with `base` parameters pushed compares with. */
  function LeafArg(term: FilterTerm, base: nat): Arg {
    if HasParam(term) then Hole(base + 1) else NoArg
  }

  lemma EmptyWhenVacuous(node: QueryNode, base: nat)
    ensures (Emitted(node, base) == []) == Vacuous(node)
  {
  }

  lemma OrFacts(l: QueryNode, r: QueryNode, base: nat)
    ensures Vacuous(Or(l, r)) == (Emitted(l, 0) == [] || Emitted(r, 0) == [])
    ensures Vacuous(Or(l, r)) ==> Emitted(Or(l, r), base) == [] && LiveParams(Or(l, r)) == []
    ensures !Vacuous(Or(l, r)) ==> LiveParams(Or(l, r)) == LiveParams(l) + LiveParams(r)
  {
    EmptyWhenVacuous(l, 0);
    EmptyWhenVacuous(r, 0);
    EmptyWhenVacuous(Or(l, r), base);
  }

  lemma EmittedWf(node: QueryNode, base: nat)
    ensures AllWf(Emitted(node, base))
  {
    BuildShaped(node, Holes(CodeNumbers(node, base)), false);
  }

  lemma AtomText(pred: Predicate, arg: Arg)
    ensures PrintAnd([Atom(pred, arg)]) == [Cmp(pred, arg)]
    ensures PrintOr([Conj([Atom(pred, arg)])]) == [Cmp(pred, arg)]
  {
    assert PrintAnd([Atom(pred, arg)]) == PrintUnit(Atom(pred, arg));
  }

  lemma GroupText(d: Disj)
    ensures PrintOr([Conj([Group(d)])]) == [Open] + PrintOr(d) + [Close]
    ensures PrintOr([Conj([Negated(Group(d))])]) == [NotKw] + ([Open] + PrintOr(d) + [Close])
  {
    assert PrintUnit(Negated(Group(d))) == [NotKw] + PrintUnit(Group(d));
    assert PrintAnd([Group(d)]) == PrintUnit(Group(d));
    assert PrintAnd([Negated(Group(d))]) == PrintUnit(Negated(Group(d)));
  }

  /** One side of an OR as text, lines 404-412. */
  function SideTokens(texts: seq<seq<SqlToken>>): seq<SqlToken> {
    if |texts| == 1 then Join(texts, AndKw) else [Open] + Join(texts, AndKw) + [Close]
  }

  lemma SideText(cs: seq<Disj>)
    requires cs != [] && AllWf(cs)
    ensures PrintOr(Side(cs, false)) == SideTokens(Texts(cs))
  {
    GlueAllWf(cs);
    if |cs| > 1 {
      GroupText(GlueAll(cs));
    }
  }

  lemma OrText(l: QueryNode, r: QueryNode, base: nat)
    requires !Vacuous(Or(l, r))
    ensures Texts(Emitted(Or(l, r), base))
         == [[Open]
             + (SideTokens(Texts(Emitted(l, 0))) + [OrKw] + SideTokens(Texts(Emitted(r, 0))))
             + [Close]]
  {
    EmittedOr(l, r, base);
    EmittedWf(l, 0);
    EmittedWf(r, 0);
    var a, b := Side(Emitted(l, 0), false), Side(Emitted(r, 0), false);
    SideText(Emitted(l, 0));
    SideText(Emitted(r, 0));
    PrintOrAppend(a, b);
    GroupText(a + b);
  }

  lemma NotText(inner: QueryNode, base: nat)
    requires !Vacuous(inner)
    ensures Texts(Emitted(Not(inner), base))
         == [[NotKw] + ([Open] + Join(Texts(Emitted(inner, 0)), AndKw) + [Close])]
  {
    EmittedWf(inner, 0);
    GlueAllWf(Emitted(inner, 0));
    GroupText(Glue(Emitted(inner, 0), false));
  }

  /** The two growing vectors `compile_node` writes to. */
  class Emitter {
    var conditions: seq<seq<SqlToken>>
    var params: seq<string>

    constructor ()
      ensures conditions == [] && params == []
    {
      conditions, params := [], [];
    }

    method CompileFullText(term: FilterTerm) returns (sql: seq<SqlToken>)
      requires Classify(term) == FullText
      modifies this`params
      ensures params == old(params) + [ParamText(term)]
      ensures sql == PrintOr(LeafBody(term, Hole(|params|)))
    {
      params := params + [term.value];
      sql := [];
      var i := |FULL_TEXT_COLUMNS|;
      while i > 0
        invariant 0 <= i <= |FULL_TEXT_COLUMNS|
        invariant params == old(params) + [term.value]
        invariant sql == PrintOr(WordAlternatives(FULL_TEXT_COLUMNS[i..], Hole(|params|)))
      {
        i := i - 1;
        var one := [Cmp(WordIn(FULL_TEXT_COLUMNS[i]), Hole(|params|))];
        sql := if i + 1 == |FULL_TEXT_COLUMNS| then one else one + [OrKw] + sql;
        assert FULL_TEXT_COLUMNS[i..][1..] == FULL_TEXT_COLUMNS[i + 1..];
        AtomText(WordIn(FULL_TEXT_COLUMNS[i]), Hole(|params|));
      }
      assert FULL_TEXT_COLUMNS[0..] == FULL_TEXT_COLUMNS;
    }

    method CompileTag(term: FilterTerm) returns (sql: seq<SqlToken>)
      requires Classify(term) == Tag
      ensures sql == PrintOr(LeafBody(term, NoArg))
    {
      sql := [Cmp(HasTag(term.value), NoArg)];
      AtomText(HasTag(term.value), NoArg);
    }

    method CompilePort(term: FilterTerm) returns (sql: seq<SqlToken>)
      requires Classify(term) == Port
      modifies this`params
      ensures params == old(params) + if HasParam(term) then [ParamText(term)] else []
      ensures sql == PrintOr(LeafBody(term, LeafArg(term, |old(params)|)))
    {
      var port := ParseU16(term.value);
      AtomText(PortIs, Hole(|params| + 1));
      AtomText(FalseLit, NoArg);
      if port.Some? {
        params := params + [Show(port.value)];
        sql := [Cmp(PortIs, Hole(|params|))];
      } else {
        sql := [Cmp(FalseLit, NoArg)];
      }
    }

    method CompileCountry(term: FilterTerm) returns (sql: seq<SqlToken>)
      requires Classify(term) == Country
      modifies this`params
      ensures params == old(params) + [ParamText(term)]
      ensures sql == PrintOr(LeafBody(term, Hole(|params|)))
    {
      params := params + [Upper(term.value)];
      sql := [Cmp(CountryIs, Hole(|params|))];
      AtomText(CountryIs, Hole(|params|));
    }

    method CompileJsonContains(term: FilterTerm) returns (sql: seq<SqlToken>)
      requires Classify(term) == JsonContains
      ensures sql == PrintOr(LeafBody(term, NoArg))
    {
      sql := [Cmp(HasField(term.key, term.value), NoArg)];
      AtomText(HasField(term.key, term.value), NoArg);
    }

    method CompileJsonText(term: FilterTerm) returns (sql: seq<SqlToken>)
      requires Classify(term) == JsonText
      modifies this`params
      ensures params == old(params) + [ParamText(term)]
      ensures sql == PrintOr(LeafBody(term, Hole(|params|)))
    {
      params := params + [term.value];
      sql := [Cmp(TextOp(term.key, term.op), Hole(|params|))];
      AtomText(TextOp(term.key, term.op), Hole(|params|));
    }

    /** The filter case of `compile_node`, lines 437-461. */
    method CompileFilter(term: FilterTerm)
      modifies this
      ensures conditions == old(conditions) + Texts(Emitted(Filter(term), |old(params)|))
      ensures params == old(params) + LiveParams(Filter(term))
    {
      if term.key == "" && term.value == "" {
        return;
      }
      var kind := Classify(term);
      var sql;
      match kind {
        case Tag => sql := CompileTag(term);
        case Port => sql := CompilePort(term);
        case Country => sql := CompileCountry(term);
        case FullText => sql := CompileFullText(term);
        case JsonContains => sql := CompileJsonContains(term);
        case JsonText => sql := CompileJsonText(term);
      }
      GroupText(LeafBody(term, LeafArg(term, |old(params)|)));
      if term.negate {
        conditions := conditions + [[NotKw] + ([Open] + sql + [Close])];
      } else {
        conditions := conditions + [sql];
      }
    }

    /** The OR case, lines 382-414. */
    method CompileOr(l: QueryNode, r: QueryNode)
      modifies this
      ensures conditions == old(conditions) + Texts(Emitted(Or(l, r), |old(params)|))
      ensures params == old(params) + LiveParams(Or(l, r))
      decreases Or(l, r), 0
    {
      hide Emitted, Join, Texts, Vacuous, LiveParams;
      OrFacts(l, r, |params|);
      var left := new Emitter();
      left.CompileNode(l);
      var right := new Emitter();
      right.CompileNode(r);
      assert left.conditions == Texts(Emitted(l, 0)) && right.conditions == Texts(Emitted(r, 0));
      if left.conditions == [] || right.conditions == [] {
        return;
      }
      var leftSql := Join(left.conditions, AndKw);
      var rightSql := Join(right.conditions, AndKw);
      params := params + (left.params + right.params);
      var body;
      if |left.conditions| == 1 && |right.conditions| == 1 {
        body := leftSql + [OrKw] + rightSql;
      } else if |left.conditions| == 1 {
        body := leftSql + [OrKw] + ([Open] + rightSql + [Close]);
      } else if |right.conditions| == 1 {
        body := [Open] + leftSql + [Close] + [OrKw] + rightSql;
      } else {
        body := [Open] + leftSql + [Close] + [OrKw] + ([Open] + rightSql + [Close]);
      }
      OrText(l, r, |old(params)|);
      assert body == SideTokens(left.conditions) + [OrKw] + SideTokens(right.conditions);
      conditions := conditions + [[Open] + body + [Close]];
    }

    /** The NOT case, lines 415-436. */
    method CompileNot(inner: QueryNode)
      modifies this
      ensures conditions == old(conditions) + Texts(Emitted(Not(inner), |old(params)|))
      ensures params == old(params) + LiveParams(Not(inner))
      decreases Not(inner), 0
    {
      hide Emitted, Join, Texts;
      EmptyWhenVacuous(inner, 0);
      EmptyWhenVacuous(Not(inner), |params|);
      var body := new Emitter();
      body.CompileNode(inner);
      assert body.conditions == Texts(Emitted(inner, 0));
      if body.conditions == [] {
        return;
      }
      var sql := Join(body.conditions, AndKw);
      params := params + body.params;
      NotText(inner, |old(params)|);
      conditions := conditions + [[NotKw] + ([Open] + sql + [Close])];
    }

    /** Lines 376-463. */
    method CompileNode(node: QueryNode)
      modifies this
      ensures conditions == old(conditions) + Texts(Emitted(node, |old(params)|))
      ensures params == old(params) + LiveParams(node)
      decreases node, 1
    {
      hide Emitted;
      match node {
        case And(l, r) =>
          CompileNode(l);
          CompileNode(r);
          EmittedAnd(l, r, |old(params)|);
          TextsAppend(Emitted(l, |old(params)|), Emitted(r, |old(params)| + |LiveParams(l)|));
        case Or(l, r) => CompileOr(l, r);
        case Not(inner) => CompileNot(inner);
        case Filter(term) => CompileFilter(term);
      }
    }
  }

  /** Lines 364-374. */
  method CompileToSql(node: QueryNode) returns (clause: seq<SqlToken>, params: seq<string>)
    ensures clause == Clause(node)
    ensures params == LiveParams(node)
  {
    var out := new Emitter();
    out.CompileNode(node);
    assert out.conditions == Texts(Emitted(node, 0));
    EmittedWf(node, 0);
    if out.conditions == [] {
      clause := [Cmp(TrueLit, NoArg)];
      AtomText(TrueLit, NoArg);
    } else {
      GlueAllWf(Emitted(node, 0));
      clause := Join(out.conditions, AndKw);
    }
    params := out.params;
  }
}
