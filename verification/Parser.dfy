/** The recursive-descent parser of src/query.rs, lines 199-295. */
module Parsing {
  import opened Query
  import opened Text

  // ─── What each procedure makes of the remaining tokens ───

  datatype Parsed = Parsed(node: QueryNode, rest: seq<Token>)

  function ParseAtom(ts: seq<Token>): (p: Parsed)
    ensures |p.rest| <= |ts| && (ts != [] ==> |p.rest| < |ts|)
    decreases |ts|, 0
  {
    if ts == [] then Parsed(EMPTY_FILTER, [])
    else match ts[0]
      case LParen =>
        var p := ParseOr(ts[1..]);
        if p.rest != [] && p.rest[0] == RParen then Parsed(p.node, p.rest[1..]) else p
      case KeyVal(key, op, value) => Parsed(Filter(FilterTerm(key, op, value, false)), ts[1..])
      case BareWord(word) => Parsed(Filter(FilterTerm("", Default, word, false)), ts[1..])
      case _ => Parsed(EMPTY_FILTER, ts[1..])
  }

  function ParseNot(ts: seq<Token>): (p: Parsed)
    ensures |p.rest| <= |ts| && (ts != [] ==> |p.rest| < |ts|)
    decreases |ts|, 1
  {
    if ts != [] && ts[0] == NotTok then
      var p := ParseAtom(ts[1..]); Parsed(Not(p.node), p.rest)
    else ParseAtom(ts)
  }

  function AndLoop(left: QueryNode, ts: seq<Token>): (p: Parsed)
    ensures |p.rest| <= |ts|
    ensures p.rest == [] || p.rest[0] == OrTok || p.rest[0] == RParen
    decreases |ts|, 2
  {
    if ts != [] && ts[0] != OrTok && ts[0] != RParen then
      var p := ParseNot(ts); AndLoop(And(left, p.node), p.rest)
    else Parsed(left, ts)
  }

  function ParseAnd(ts: seq<Token>): (p: Parsed)
    ensures |p.rest| <= |ts| && (ts != [] ==> |p.rest| < |ts|)
    ensures p.rest == [] || p.rest[0] == OrTok || p.rest[0] == RParen
    decreases |ts|, 3
  {
    var p := ParseNot(ts);
    AndLoop(p.node, p.rest)
  }

  function OrLoop(left: QueryNode, ts: seq<Token>): (p: Parsed)
    requires ts == [] || ts[0] == OrTok || ts[0] == RParen
    ensures |p.rest| <= |ts|
    ensures p.rest == [] || p.rest[0] == RParen
    decreases |ts|, 4
  {
    if ts != [] && ts[0] == OrTok then
      var p := ParseAnd(ts[1..]); OrLoop(Or(left, p.node), p.rest)
    else Parsed(left, ts)
  }

  function ParseOr(ts: seq<Token>): (p: Parsed)
    ensures |p.rest| <= |ts| && (ts != [] ==> |p.rest| < |ts|)
    ensures p.rest == [] || p.rest[0] == RParen
    decreases |ts|, 5
  {
    var p := ParseAnd(ts);
    OrLoop(p.node, p.rest)
  }

  /** The tree of a whole query; what follows an unmatched `)` is not read. */
  function Parse(ts: seq<Token>): QueryNode {
    if ts == [] then EMPTY_FILTER else ParseOr(ts).node
  }

  // ─── The cursor ───

  class Parser {
    const tokens: seq<Token>
    var pos: nat

    constructor (tokens: seq<Token>)
      ensures this.tokens == tokens && pos == 0
    {
      this.tokens := tokens;
      pos := 0;
    }

    /** The tokens the cursor has not passed; it can stand one past the end. */
    ghost function Rest(): seq<Token>
      reads this
    {
      if pos <= |tokens| then tokens[pos..] else []
    }

    predicate AtEnd()
      reads this
    {
      pos >= |tokens|
    }

    predicate AtToken(t: Token)
      reads this
    {
      pos < |tokens| && tokens[pos] == t
    }

    method ParseOrNode() returns (left: QueryNode)
      requires pos <= |tokens|
      modifies this`pos
      ensures Parsed(left, Rest()) == ParseOr(old(Rest()))
      ensures old(pos) < pos <= |tokens| + 1
      decreases |tokens| - pos, 3
    {
      left := ParseAndNode();
      ghost var first := Parsed(left, Rest());
      assert ParseOr(old(Rest())) == OrLoop(first.node, first.rest);
      while AtToken(OrTok)
        invariant old(pos) < pos <= |tokens| + 1
        invariant Rest() == [] || Rest()[0] == OrTok || Rest()[0] == RParen
        invariant OrLoop(left, Rest()) == OrLoop(first.node, first.rest)
        decreases |tokens| + 1 - pos
      {
        ghost var before := Rest();
        pos := pos + 1;
        assert Rest() == before[1..];
        var right := ParseAndNode();
        left := Or(left, right);
      }
    }

    method ParseAndNode() returns (left: QueryNode)
      requires pos <= |tokens|
      modifies this`pos
      ensures Parsed(left, Rest()) == ParseAnd(old(Rest()))
      ensures old(pos) < pos <= |tokens| + 1
      decreases |tokens| - pos, 2
    {
      left := ParseNotNode();
      ghost var first := Parsed(left, Rest());
      while !AtEnd() && !AtToken(OrTok) && !AtToken(RParen)
        invariant old(pos) < pos <= |tokens| + 1
        invariant AndLoop(left, Rest()) == AndLoop(first.node, first.rest)
        decreases |tokens| + 1 - pos
      {
        var right := ParseNotNode();
        left := And(left, right);
      }
    }

    method ParseNotNode() returns (node: QueryNode)
      requires pos <= |tokens|
      modifies this`pos
      ensures Parsed(node, Rest()) == ParseNot(old(Rest()))
      ensures old(pos) < pos <= |tokens| + 1
      decreases |tokens| - pos, 1
    {
      if AtToken(NotTok) {
        pos := pos + 1;
        assert Rest() == old(Rest())[1..];
        var inner := ParseAtomNode();
        return Not(inner);
      }
      node := ParseAtomNode();
    }

    method ParseAtomNode() returns (node: QueryNode)
      requires pos <= |tokens|
      modifies this`pos
      ensures Parsed(node, Rest()) == ParseAtom(old(Rest()))
      ensures old(pos) < pos <= |tokens| + 1
      decreases |tokens| - pos, 0
    {
      if AtEnd() {
        pos := pos + 1;
        return EMPTY_FILTER;
      }
      var token := tokens[pos];
      pos := pos + 1;
      assert Rest() == old(Rest())[1..];
      match token {
        case LParen =>
          node := ParseOrNode();
          if AtToken(RParen) {
            ghost var before := Rest();
            pos := pos + 1;
            assert Rest() == before[1..];
          }
        case KeyVal(key, op, value) =>
          node := Filter(FilterTerm(key, op, value, false));
        case BareWord(word) =>
          node := Filter(FilterTerm("", Default, word, false));
        case _ =>
          node := EMPTY_FILTER;
      }
    }

    /** Lines 209-220. The cursor stops at most one past the end, or at an unmatched `)`. */
    method ParseQueryNode() returns (node: QueryNode)
      requires pos == 0
      modifies this`pos
      ensures node == Parse(tokens)
      ensures pos <= |tokens| + 1
      ensures tokens == [] || pos >= |tokens| || tokens[pos] == RParen
    {
      if tokens == [] {
        return EMPTY_FILTER;
      }
      assert tokens[0..] == tokens;
      node := ParseOrNode();
      assert Rest() == [] || Rest()[0] == RParen;
    }
  }

  // ─── Writing a tree with as few parentheses as it needs ───

  function Strength(node: QueryNode): nat {
    match node case Or(_, _) => 0 case And(_, _) => 1 case Not(_) => 2 case Filter(_) => 3
  }

  function FilterToken(term: FilterTerm): Token {
    if term.key == "" then BareWord(term.value) else KeyVal(term.key, term.op, term.value)
  }

  /** The tokens of a tree where a node of at least strength `level` needs no parentheses. */
  function Print(node: QueryNode, level: nat): seq<Token>
    requires level <= 3
    decreases node, if Strength(node) < level then 1 else 0
  {
    if Strength(node) < level then [LParen] + Print(node, 0) + [RParen]
    else match node
      case Or(l, r) => Print(l, 0) + [OrTok] + Print(r, 1)
      case And(l, r) => Print(l, 1) + Print(r, 2)
      case Not(inner) => [NotTok] + Print(inner, 3)
      case Filter(term) => [FilterToken(term)]
  }

  /** Trees the parser can return: no negated filter, no operator without a key. */
  predicate Printable(node: QueryNode) {
    match node
    case Or(l, r) => Printable(l) && Printable(r)
    case And(l, r) => Printable(l) && Printable(r)
    case Not(inner) => Printable(inner)
    case Filter(term) => !term.negate && (term.key == "" ==> term.op == Default)
  }

  lemma {:induction false} PrintStarts(node: QueryNode, level: nat)
    requires level <= 3
    ensures var ts := Print(node, level);
      && ts != [] && ts[0] != OrTok && ts[0] != RParen && ts[0] != AndTok
      && (level == 3 ==> ts[0] != NotTok)
    decreases node, if Strength(node) < level then 1 else 0
  {
    if Strength(node) >= level {
      match node
      case Or(l, r) => PrintStarts(l, 0);
      case And(l, r) => PrintStarts(l, 1);
      case Not(inner) =>
      case Filter(term) =>
    }
  }

  /** How many procedures, from `level` on, pass a node along before one takes it apart. */
  function Turns(node: QueryNode, level: nat): nat
    requires level <= 3
  {
    (Strength(node) + 4 - level) % 4
  }

  predicate Stops(rest: seq<Token>) {
    rest == [] || rest[0] == OrTok || rest[0] == RParen
  }

  lemma OrLoopMore(left: QueryNode, more: seq<Token>)
    ensures OrLoop(left, [OrTok] + more) == OrLoop(Or(left, ParseAnd(more).node), ParseAnd(more).rest)
  {
    assert ([OrTok] + more)[1..] == more;
  }

  lemma ParensRead(inner: seq<Token>, node: QueryNode, rest: seq<Token>)
    requires ParseOr(inner + ([RParen] + rest)) == Parsed(node, [RParen] + rest)
    ensures ParseAtom([LParen] + inner + [RParen] + rest) == Parsed(node, rest)
  {
    var ts := [LParen] + inner + [RParen] + rest;
    assert ts[1..] == inner + ([RParen] + rest);
    assert ([RParen] + rest)[1..] == rest;
  }

  lemma {:induction false} ParseAtomPrint(node: QueryNode, rest: seq<Token>)
    requires Printable(node)
    ensures ParseAtom(Print(node, 3) + rest) == Parsed(node, rest)
    decreases node, Turns(node, 3)
  {
    if node.Filter? {
      assert ([FilterToken(node.term)] + rest)[1..] == rest;
    } else {
      ParseOrPrint(node, [RParen] + rest);
      ParensRead(Print(node, 0), node, rest);
    }
  }

  lemma {:induction false} ParseNotPrint(node: QueryNode, rest: seq<Token>)
    requires Printable(node)
    ensures ParseNot(Print(node, 2) + rest) == Parsed(node, rest)
    decreases node, Turns(node, 2)
  {
    match node
    case Not(inner) =>
      ParseAtomPrint(inner, rest);
      assert (Print(node, 2) + rest)[1..] == Print(inner, 3) + rest;
    case _ =>
      ParseAtomPrint(node, rest);
      PrintStarts(node, 3);
      assert Print(node, 2) == Print(node, 3);
  }

  lemma {:induction false} ParseAndPrint(node: QueryNode, rest: seq<Token>)
    requires Printable(node)
    ensures ParseAnd(Print(node, 1) + rest) == AndLoop(node, rest)
    decreases node, Turns(node, 1)
  {
    match node
    case And(l, r) =>
      ParseAndPrint(l, Print(r, 2) + rest);
      ParseNotPrint(r, rest);
      PrintStarts(r, 2);
      assert Print(node, 1) + rest == Print(l, 1) + (Print(r, 2) + rest);
    case _ =>
      ParseNotPrint(node, rest);
      assert Print(node, 1) == Print(node, 2);
  }

  lemma {:induction false} ParseOrPrint(node: QueryNode, rest: seq<Token>)
    requires Printable(node) && Stops(rest)
    ensures ParseOr(Print(node, 0) + rest) == OrLoop(node, rest)
    decreases node, Turns(node, 0)
  {
    match node
    case Or(l, r) =>
      var more := Print(r, 1) + rest;
      ParseOrPrint(l, [OrTok] + more);
      ParseAndPrint(r, rest);
      OrLoopMore(l, more);
      Regroup(Print(l, 0), [OrTok], Print(r, 1), rest);
    case _ =>
      ParseAndPrint(node, rest);
      assert Print(node, 0) == Print(node, 1);
  }

  /** The parser inverts the printer on every printable tree. */
  lemma ParsePrint(node: QueryNode)
    requires Printable(node)
    ensures Parse(Print(node, 0)) == node
  {
    ParseOrPrint(node, []);
    PrintStarts(node, 0);
    assert Print(node, 0) + [] == Print(node, 0);
  }

  /** Parentheses opened and never closed. */
  function Opened(k: nat, ts: seq<Token>): seq<Token> {
    if k == 0 then ts else [LParen] + Opened(k - 1, ts)
  }

  lemma {:induction false} OpenedRead(node: QueryNode, k: nat)
    requires Printable(node)
    ensures ParseOr(Opened(k, Print(node, 0))) == Parsed(node, [])
  {
    var ts := Opened(k, Print(node, 0));
    if k == 0 {
      ParseOrPrint(node, []);
      assert ts + [] == ts;
    } else {
      OpenedRead(node, k - 1);
      assert ts[1..] == Opened(k - 1, Print(node, 0));
      assert ParseAtom(ts) == Parsed(node, []);
      assert ParseNot(ts) == Parsed(node, []);
      assert ParseAnd(ts) == Parsed(node, []);
    }
  }

  /** Closing parentheses may be left out at the end, any number of them. */
  lemma UnclosedRead(node: QueryNode, k: nat)
    requires Printable(node)
    ensures Parse(Opened(k, Print(node, 0))) == node
  {
    OpenedRead(node, k);
    PrintStarts(node, 0);
  }

  /** What follows an unmatched closing parenthesis is not read. */
  lemma UnmatchedCloser(node: QueryNode, rest: seq<Token>)
    requires Printable(node)
    ensures Parse(Print(node, 0) + ([RParen] + rest)) == node
  {
    ParseOrPrint(node, [RParen] + rest);
  }

  // ─── No fewer parentheses will do ───

  function Opens(ts: seq<Token>): nat {
    if ts == [] then 0 else (if ts[0] == LParen then 1 else 0) + Opens(ts[1..])
  }

  lemma {:induction false} OpensAppend(a: seq<Token>, b: seq<Token>)
    ensures Opens(a + b) == Opens(a) + Opens(b)
  {
    if a == [] {
      assert a + b == b;
    } else {
      assert (a + b)[1..] == a[1..] + b;
      OpensAppend(a[1..], b);
    }
  }

  /** The pairs of parentheses inside a tree, not counting one around it. */
  function Inside(node: QueryNode): nat
    decreases node, 0
  {
    match node
    case Or(l, r) => Around(l, 0) + Around(r, 1)
    case And(l, r) => Around(l, 1) + Around(r, 2)
    case Not(inner) => Around(inner, 3)
    case Filter(_) => 0
  }

  function Around(node: QueryNode, level: nat): nat
    decreases node, 1
  {
    Inside(node) + if Strength(node) < level then 1 else 0
  }

  lemma {:induction false} OpensPrint(node: QueryNode, level: nat)
    requires level <= 3
    ensures Opens(Print(node, level)) == Around(node, level)
    decreases node, if Strength(node) < level then 1 else 0
  {
    if Strength(node) < level {
      OpensPrint(node, 0);
      OpensAppend([LParen], Print(node, 0));
      OpensAppend([LParen] + Print(node, 0), [RParen]);
    } else {
      match node
      case Or(l, r) =>
        OpensPrint(l, 0);
        OpensPrint(r, 1);
        OpensAppend(Print(l, 0), [OrTok]);
        OpensAppend(Print(l, 0) + [OrTok], Print(r, 1));
      case And(l, r) =>
        OpensPrint(l, 1);
        OpensPrint(r, 2);
        OpensAppend(Print(l, 1), Print(r, 2));
      case Not(inner) =>
        OpensPrint(inner, 3);
        OpensAppend([NotTok], Print(inner, 3));
      case Filter(term) =>
    }
  }

  lemma {:induction false} AtomOpens(ts: seq<Token>)
    ensures Opens(ts) >= Opens(ParseAtom(ts).rest) + Around(ParseAtom(ts).node, 3)
    decreases |ts|, 0
  {
    if ts != [] && ts[0] == LParen {
      OrOpens(ts[1..]);
    }
  }

  lemma {:induction false} NotOpens(ts: seq<Token>)
    ensures Opens(ts) >= Opens(ParseNot(ts).rest) + Around(ParseNot(ts).node, 2)
    decreases |ts|, 1
  {
    if ts != [] && ts[0] == NotTok {
      AtomOpens(ts[1..]);
    } else {
      AtomOpens(ts);
    }
  }

  lemma {:induction false} AndLoopOpens(left: QueryNode, ts: seq<Token>)
    ensures Opens(ts) + Around(left, 1) >= Opens(AndLoop(left, ts).rest) + Around(AndLoop(left, ts).node, 1)
    decreases |ts|, 2
  {
    if !Stops(ts) {
      var p := ParseNot(ts);
      NotOpens(ts);
      AndLoopOpens(And(left, p.node), p.rest);
    }
  }

  lemma {:induction false} AndOpens(ts: seq<Token>)
    ensures Opens(ts) >= Opens(ParseAnd(ts).rest) + Around(ParseAnd(ts).node, 1)
    decreases |ts|, 3
  {
    NotOpens(ts);
    AndLoopOpens(ParseNot(ts).node, ParseNot(ts).rest);
  }

  lemma {:induction false} OrLoopOpens(left: QueryNode, ts: seq<Token>)
    requires Stops(ts)
    ensures Opens(ts) + Around(left, 0) >= Opens(OrLoop(left, ts).rest) + Around(OrLoop(left, ts).node, 0)
    decreases |ts|, 4
  {
    if ts != [] && ts[0] == OrTok {
      var p := ParseAnd(ts[1..]);
      AndOpens(ts[1..]);
      OrLoopOpens(Or(left, p.node), p.rest);
    }
  }

  lemma {:induction false} OrOpens(ts: seq<Token>)
    ensures Opens(ts) >= Opens(ParseOr(ts).rest) + Around(ParseOr(ts).node, 0)
    decreases |ts|, 5
  {
    AndOpens(ts);
    OrLoopOpens(ParseAnd(ts).node, ParseAnd(ts).rest);
  }

  /** Whatever tokens parse to a tree, the printer writes it with no more opening parentheses. */
  lemma FewestParentheses(ts: seq<Token>)
    ensures Opens(Print(Parse(ts), 0)) <= Opens(ts)
  {
    OrOpens(ts);
    OpensPrint(Parse(ts), 0);
  }
}
