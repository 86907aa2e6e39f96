/**
 WHERE clauses as SQL tokens, the way PostgreSQL reads them back (OR binds
 loosest, then AND, then NOT), and their value in three-valued logic. One
 comparison such as `s.port = $1::int` is one token: the operators inside it
 bind tighter than NOT.
 */
module SqlText {
  import opened Query
  import opened Text

  /** What a comparison tests, without the text it compares with. */
  datatype Predicate =
    | TrueLit
    | FalseLit
    | HasTag(tag: string)
    | HasField(path: string, value: string)
    | PortIs
    | CountryIs
    | WordIn(column: string)
    | TextOp(path: string, op: FilterOp)

  /** Nothing to compare with, the placeholder `$k`, or the text bound to one. */
  datatype Arg = NoArg | Hole(k: nat) | Bound(text: string)

  datatype SqlToken =
    | AndKw
    | OrKw
    | NotKw
    | Open
    | Close
    | Cmp(pred: Predicate, arg: Arg)

  /** SQL syntax trees: an OR-list of AND-lists of units. */
  datatype Unit = Atom(pred: Predicate, arg: Arg) | Group(alts: Disj) | Negated(unit: Unit)
  datatype Conj = Conj(units: seq<Unit>)
  type Disj = seq<Conj>

  // ─── Writing ───

  function PrintUnit(u: Unit): seq<SqlToken>
    decreases u, 0
  {
    match u
    case Atom(pred, arg) => [Cmp(pred, arg)]
    case Group(alts) => [Open] + PrintOr(alts) + [Close]
    case Negated(v) => [NotKw] + PrintUnit(v)
  }

  function PrintAnd(us: seq<Unit>): seq<SqlToken>
    decreases us, 0
  {
    if us == [] then []
    else if |us| == 1 then PrintUnit(us[0])
    else PrintUnit(us[0]) + [AndKw] + PrintAnd(us[1..])
  }

  function PrintOr(d: Disj): seq<SqlToken>
    decreases d, 0
  {
    if d == [] then []
    else if |d| == 1 then PrintAnd(d[0].units)
    else PrintAnd(d[0].units) + [OrKw] + PrintOr(d[1..])
  }

  predicate WfUnit(u: Unit)
    decreases u, 0
  {
    match u
    case Atom(_, _) => true
    case Group(alts) => WfOr(alts)
    case Negated(v) => WfUnit(v)
  }

  predicate WfAnd(us: seq<Unit>)
    decreases us, 0
  {
    us != [] && forall i :: 0 <= i < |us| ==> WfUnit(us[i])
  }

  predicate WfOr(d: Disj)
    decreases d, 0
  {
    d != [] && forall i :: 0 <= i < |d| ==> WfAnd(d[i].units)
  }

  // ─── Reading ───

  datatype Reading<+A> = Reject | Accept(value: A, rest: seq<SqlToken>)

  function ReadUnit(ts: seq<SqlToken>): (r: Reading<Unit>)
    ensures r.Accept? ==> |r.rest| < |ts|
    decreases |ts|, 0
  {
    if ts == [] then Reject
    else match ts[0]
      case Cmp(pred, arg) => Accept(Atom(pred, arg), ts[1..])
      case NotKw =>
        (match ReadUnit(ts[1..])
         case Reject => Reject
         case Accept(u, rest) => Accept(Negated(u), rest))
      case Open =>
        (match ReadOr(ts[1..])
         case Reject => Reject
         case Accept(d, rest) =>
           if rest != [] && rest[0] == Close then Accept(Group(d), rest[1..]) else Reject)
      case _ => Reject
  }

  function ReadAnd(ts: seq<SqlToken>): (r: Reading<seq<Unit>>)
    ensures r.Accept? ==> |r.rest| < |ts|
    decreases |ts|, 1
  {
    match ReadUnit(ts)
    case Reject => Reject
    case Accept(u, rest) =>
      if rest != [] && rest[0] == AndKw then
        match ReadAnd(rest[1..])
        case Reject => Reject
        case Accept(us, after) => Accept([u] + us, after)
      else Accept([u], rest)
  }

  function ReadOr(ts: seq<SqlToken>): (r: Reading<Disj>)
    ensures r.Accept? ==> |r.rest| < |ts|
    decreases |ts|, 2
  {
    match ReadAnd(ts)
    case Reject => Reject
    case Accept(us, rest) =>
      if rest != [] && rest[0] == OrKw then
        match ReadOr(rest[1..])
        case Reject => Reject
        case Accept(d, after) => Accept([Conj(us)] + d, after)
      else Accept([Conj(us)], rest)
  }

  /** The tree the database makes of a whole clause; Reject is a syntax error. */
  function Read(ts: seq<SqlToken>): Reading<Disj> {
    match ReadOr(ts)
    case Reject => Reject
    case Accept(d, rest) => if rest == [] then Accept(d, []) else Reject
  }

  lemma {:induction false} ReadPrintUnit(u: Unit, rest: seq<SqlToken>)
    requires WfUnit(u)
    ensures ReadUnit(PrintUnit(u) + rest) == Accept(u, rest)
    decreases u, 0
  {
    var ts := PrintUnit(u) + rest;
    match u
    case Atom(pred, arg) =>
      assert ts[1..] == rest;
    case Negated(v) =>
      assert ts[1..] == PrintUnit(v) + rest;
      ReadPrintUnit(v, rest);
    case Group(alts) =>
      assert ts[1..] == PrintOr(alts) + ([Close] + rest);
      ReadPrintOr(alts, [Close] + rest);
      assert ([Close] + rest)[1..] == rest;
  }

  lemma ReadAndMore(ts: seq<SqlToken>, u: Unit, more: seq<SqlToken>)
    requires ReadUnit(ts) == Accept(u, [AndKw] + more)
    requires ReadAnd(more).Accept?
    ensures ReadAnd(ts) == Accept([u] + ReadAnd(more).value, ReadAnd(more).rest)
  {
    assert ([AndKw] + more)[1..] == more;
  }

  lemma {:induction false} ReadPrintAnd(us: seq<Unit>, rest: seq<SqlToken>)
    requires WfAnd(us)
    requires rest == [] || rest[0] != AndKw
    ensures ReadAnd(PrintAnd(us) + rest) == Accept(us, rest)
    decreases us, 0
  {
    var u := us[0];
    if |us| == 1 {
      ReadPrintUnit(u, rest);
      assert us == [u];
    } else {
      var more := PrintAnd(us[1..]) + rest;
      assert ReadAnd(more) == Accept(us[1..], rest) by { ReadPrintAnd(us[1..], rest); }
      assert ReadUnit(PrintUnit(u) + ([AndKw] + more)) == Accept(u, [AndKw] + more) by {
        ReadPrintUnit(u, [AndKw] + more);
      }
      ReadAndMore(PrintUnit(u) + ([AndKw] + more), u, more);
      Regroup(PrintUnit(u), [AndKw], PrintAnd(us[1..]), rest);
      assert us == [u] + us[1..];
    }
  }

  lemma ReadOrMore(ts: seq<SqlToken>, us: seq<Unit>, more: seq<SqlToken>)
    requires ReadAnd(ts) == Accept(us, [OrKw] + more)
    requires ReadOr(more).Accept?
    ensures ReadOr(ts) == Accept([Conj(us)] + ReadOr(more).value, ReadOr(more).rest)
  {
    assert ([OrKw] + more)[1..] == more;
  }

  lemma {:induction false} ReadPrintOr(d: Disj, rest: seq<SqlToken>)
    requires WfOr(d)
    requires rest == [] || (rest[0] != AndKw && rest[0] != OrKw)
    ensures ReadOr(PrintOr(d) + rest) == Accept(d, rest)
    decreases d, 0
  {
    var us := d[0].units;
    assert d[0] == Conj(us);
    if |d| == 1 {
      ReadPrintAnd(us, rest);
      assert d == [Conj(us)];
    } else {
      var more := PrintOr(d[1..]) + rest;
      assert ReadOr(more) == Accept(d[1..], rest) by { ReadPrintOr(d[1..], rest); }
      assert ReadAnd(PrintAnd(us) + ([OrKw] + more)) == Accept(us, [OrKw] + more) by {
        ReadPrintAnd(us, [OrKw] + more);
      }
      ReadOrMore(PrintAnd(us) + ([OrKw] + more), us, more);
      Regroup(PrintAnd(us), [OrKw], PrintOr(d[1..]), rest);
      assert d == [Conj(us)] + d[1..];
    }
  }

  /** Reading inverts writing, so a printed tree determines its tree. */
  lemma ReadPrint(d: Disj)
    requires WfOr(d)
    ensures Read(PrintOr(d)) == Accept(d, [])
  {
    ReadPrintOr(d, []);
    assert PrintOr(d) + [] == PrintOr(d);
  }

  // ─── Joining texts ───

  /** `texts.join(sep)` of the standard library. */
  function Join(texts: seq<seq<SqlToken>>, sep: SqlToken): seq<SqlToken> {
    if texts == [] then []
    else if |texts| == 1 then texts[0]
    else texts[0] + [sep] + Join(texts[1..], sep)
  }

  /**
   The tree of the text `a AND b`: the AND captures only the last alternative
   of `a` and the first of `b`.
   */
  function GlueTwo(a: Disj, b: Disj): Disj
    requires a != [] && b != []
  {
    a[..|a| - 1] + [Conj(a[|a| - 1].units + b[0].units)] + b[1..]
  }

  lemma {:induction false} PrintAndAppend(us: seq<Unit>, vs: seq<Unit>)
    requires us != [] && vs != []
    ensures PrintAnd(us + vs) == PrintAnd(us) + [AndKw] + PrintAnd(vs)
  {
    if |us| == 1 {
      assert (us + vs)[1..] == vs;
    } else {
      assert (us + vs)[1..] == us[1..] + vs;
      PrintAndAppend(us[1..], vs);
    }
  }

  lemma {:induction false} PrintOrAppend(a: Disj, b: Disj)
    requires a != [] && b != []
    ensures PrintOr(a + b) == PrintOr(a) + [OrKw] + PrintOr(b)
  {
    if |a| == 1 {
      assert (a + b)[1..] == b;
    } else {
      assert (a + b)[1..] == a[1..] + b;
      PrintOrAppend(a[1..], b);
    }
  }

  lemma {:induction false} PrintGlueTwo(a: Disj, b: Disj)
    requires WfOr(a) && WfOr(b)
    ensures PrintOr(GlueTwo(a, b)) == PrintOr(a) + [AndKw] + PrintOr(b)
    ensures WfOr(GlueTwo(a, b))
  {
    var g := GlueTwo(a, b);
    if |a| == 1 {
      PrintAndAppend(a[0].units, b[0].units);
      assert g[1..] == b[1..];
    } else {
      assert g[1..] == GlueTwo(a[1..], b);
      PrintGlueTwo(a[1..], b);
      assert g[0] == a[0];
    }
  }

  // ─── Placeholders ───

  predicate HolesWithin(ts: seq<SqlToken>, n: nat) {
    forall i :: 0 <= i < |ts| && ts[i].Cmp? && ts[i].arg.Hole? ==> 1 <= ts[i].arg.k <= n
  }

  /** Open parentheses after the text, or -1 once a `)` had no partner. */
  function Depth(ts: seq<SqlToken>, open: int): int {
    if ts == [] || open < 0 then open
    else Depth(ts[1..], if ts[0] == Open then open + 1 else if ts[0] == Close then open - 1 else open)
  }

  lemma {:induction false} DepthAppend(a: seq<SqlToken>, b: seq<SqlToken>, open: int)
    ensures Depth(a + b, open) == Depth(b, Depth(a, open))
  {
    if a == [] {
      assert a + b == b;
    } else if open >= 0 {
      assert (a + b)[1..] == a[1..] + b;
      DepthAppend(a[1..], b, if a[0] == Open then open + 1 else if a[0] == Close then open - 1 else open);
    } else if a + b != [] {
      assert Depth(a + b, open) == open;
    }
  }

  lemma {:induction false} PrintedUnitBalances(u: Unit, open: nat)
    ensures Depth(PrintUnit(u), open) == open
    decreases u, 0
  {
    match u
    case Atom(pred, arg) =>
      assert PrintUnit(u)[1..] == [];
    case Negated(v) =>
      assert PrintUnit(u)[1..] == PrintUnit(v);
      PrintedUnitBalances(v, open);
    case Group(alts) =>
      assert PrintUnit(u)[1..] == PrintOr(alts) + [Close];
      DepthAppend(PrintOr(alts), [Close], open + 1);
      PrintedOrBalances(alts, open + 1);
      assert [Close][1..] == [];
      assert Depth([Close], open + 1) == Depth([], open);
  }

  lemma {:induction false} PrintedAndBalances(us: seq<Unit>, open: nat)
    ensures Depth(PrintAnd(us), open) == open
    decreases us, 0
  {
    if us == [] {
    } else {
      PrintedUnitBalances(us[0], open);
      if |us| > 1 {
        PrintedAndBalances(us[1..], open);
        DepthAppend(PrintUnit(us[0]) + [AndKw], PrintAnd(us[1..]), open);
        DepthAppend(PrintUnit(us[0]), [AndKw], open);
        assert [AndKw][1..] == [];
        assert Depth([AndKw], open) == Depth([], open);
      }
    }
  }

  lemma {:induction false} PrintedOrBalances(d: Disj, open: nat)
    ensures Depth(PrintOr(d), open) == open
    decreases d, 0
  {
    if d == [] {
    } else {
      PrintedAndBalances(d[0].units, open);
      if |d| > 1 {
        PrintedOrBalances(d[1..], open);
        DepthAppend(PrintAnd(d[0].units) + [OrKw], PrintOr(d[1..]), open);
        DepthAppend(PrintAnd(d[0].units), [OrKw], open);
        assert [OrKw][1..] == [];
        assert Depth([OrKw], open) == Depth([], open);
      }
    }
  }

  // ─── Binding parameters ───

  function BindArg(a: Arg, params: seq<string>): Arg {
    if a.Hole? && 1 <= a.k <= |params| then Bound(params[a.k - 1]) else a
  }

  function BindUnit(u: Unit, params: seq<string>): Unit
    decreases u, 0
  {
    match u
    case Atom(pred, arg) => Atom(pred, BindArg(arg, params))
    case Group(alts) => Group(BindOr(alts, params))
    case Negated(v) => Negated(BindUnit(v, params))
  }

  function BindAnd(us: seq<Unit>, params: seq<string>): (r: seq<Unit>)
    ensures |r| == |us|
    decreases us, 0
  {
    if us == [] then [] else [BindUnit(us[0], params)] + BindAnd(us[1..], params)
  }

  function BindOr(d: Disj, params: seq<string>): (r: Disj)
    ensures |r| == |d|
    decreases d, 0
  {
    if d == [] then [] else [Conj(BindAnd(d[0].units, params))] + BindOr(d[1..], params)
  }

  lemma {:induction false} BindAndAppend(us: seq<Unit>, vs: seq<Unit>, params: seq<string>)
    ensures BindAnd(us + vs, params) == BindAnd(us, params) + BindAnd(vs, params)
  {
    if us == [] {
      assert us + vs == vs;
    } else {
      assert (us + vs)[1..] == us[1..] + vs;
      BindAndAppend(us[1..], vs, params);
    }
  }

  lemma {:induction false} BindOrAppend(a: Disj, b: Disj, params: seq<string>)
    ensures BindOr(a + b, params) == BindOr(a, params) + BindOr(b, params)
  {
    if a == [] {
      assert a + b == b;
    } else {
      assert (a + b)[1..] == a[1..] + b;
      BindOrAppend(a[1..], b, params);
    }
  }

  // ─── Three-valued logic ───

  datatype Tri = T | F | U

  function And3(a: Tri, b: Tri): Tri {
    if a == F || b == F then F else if a == T && b == T then T else U
  }

  function Or3(a: Tri, b: Tri): Tri {
    if a == T || b == T then T else if a == F && b == F then F else U
  }

  function Not3(a: Tri): Tri {
    match a case T => F case F => T case U => U
  }

  /** How a row answers each comparison; comparing with NULL gives U. */
  type Row = (Predicate, Arg) -> Tri

  function EvalAtom(pred: Predicate, arg: Arg, row: Row): Tri {
    match pred
    case TrueLit => T
    case FalseLit => F
    case _ => row(pred, arg)
  }

  function EvalUnit(u: Unit, row: Row): Tri
    decreases u, 0
  {
    match u
    case Atom(pred, arg) => EvalAtom(pred, arg, row)
    case Group(alts) => EvalOr(alts, row)
    case Negated(v) => Not3(EvalUnit(v, row))
  }

  function EvalAnd(us: seq<Unit>, row: Row): Tri
    decreases us, 0
  {
    if us == [] then T else And3(EvalUnit(us[0], row), EvalAnd(us[1..], row))
  }

  function EvalOr(d: Disj, row: Row): Tri
    decreases d, 0
  {
    if d == [] then F else Or3(EvalAnd(d[0].units, row), EvalOr(d[1..], row))
  }

  lemma {:induction false} EvalAndAppend(us: seq<Unit>, vs: seq<Unit>, row: Row)
    ensures EvalAnd(us + vs, row) == And3(EvalAnd(us, row), EvalAnd(vs, row))
  {
    if us == [] {
      assert us + vs == vs;
    } else {
      assert (us + vs)[1..] == us[1..] + vs;
      EvalAndAppend(us[1..], vs, row);
    }
  }

  lemma {:induction false} EvalOrAppend(a: Disj, b: Disj, row: Row)
    ensures EvalOr(a + b, row) == Or3(EvalOr(a, row), EvalOr(b, row))
  {
    if a == [] {
      assert a + b == b;
    } else {
      assert (a + b)[1..] == a[1..] + b;
      EvalOrAppend(a[1..], b, row);
    }
  }
}
