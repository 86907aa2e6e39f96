/**
 Text, tokens and trees of a query, end to end: a parsed query written back as
 text parses to the same tree, and an explicit AND changes nothing.
 */
module QueryRoundTrips {
  import opened Query
  import opened Text
  import opened Spelling
  import opened Tokenizing
  import opened TokenText
  import opened Parsing
  import opened SqlText
  import opened QueryCompiler

  /** Lines 359-362. */
  function ParseQuery(input: string): QueryNode {
    Parse(Tokenize(input, 0))
  }

  method ParseQueryText(input: string) returns (node: QueryNode)
    requires IsAscii(input)
    ensures node == ParseQuery(input)
  {
    var lexer := new Tokenizer(input);
    var tokens := lexer.TokenizeAll();
    var parser := new Parser(tokens);
    node := parser.ParseQueryNode();
  }

  // ─── Parse, print, parse ───

  /** A tree the parser can return whose keys the tokenizer can return. */
  predicate Readable(node: QueryNode) {
    match node
    case Or(l, r) => Readable(l) && Readable(r)
    case And(l, r) => Readable(l) && Readable(r)
    case Not(inner) => Readable(inner)
    case Filter(term) => !term.negate && (if term.key == "" then term.op == Default else LegalKey(term.key))
  }

  lemma {:induction false} ReadableIsPrintable(node: QueryNode)
    requires Readable(node)
    ensures Printable(node)
  {
    match node
    case Or(l, r) => ReadableIsPrintable(l); ReadableIsPrintable(r);
    case And(l, r) => ReadableIsPrintable(l); ReadableIsPrintable(r);
    case Not(inner) => ReadableIsPrintable(inner);
    case Filter(_) =>
  }

  lemma {:induction false} PrintLegal(node: QueryNode, level: nat)
    requires Readable(node) && level <= 3
    ensures Legal(Print(node, level))
    decreases node, if Strength(node) < level then 1 else 0
  {
    if Strength(node) < level {
      PrintLegal(node, 0);
    } else {
      match node
      case Or(l, r) => PrintLegal(l, 0); PrintLegal(r, 1);
      case And(l, r) => PrintLegal(l, 1); PrintLegal(r, 2);
      case Not(inner) => PrintLegal(inner, 3);
      case Filter(term) =>
    }
  }

  lemma EmptyKeyIsIllegal()
    ensures !LegalKey("")
  {
  }

  lemma {:induction false} AtomReadable(ts: seq<Token>)
    requires Legal(ts)
    ensures Readable(ParseAtom(ts).node) && Legal(ParseAtom(ts).rest)
    decreases |ts|, 0
  {
    EmptyKeyIsIllegal();
    if ts != [] {
      if ts[0] == LParen {
        OrReadable(ts[1..]);
      } else if ts[0].KeyVal? {
        assert LegalToken(ts[0]);
      }
    }
  }

  lemma {:induction false} NotReadable(ts: seq<Token>)
    requires Legal(ts)
    ensures Readable(ParseNot(ts).node) && Legal(ParseNot(ts).rest)
    decreases |ts|, 1
  {
    if ts != [] && ts[0] == NotTok {
      AtomReadable(ts[1..]);
    } else {
      AtomReadable(ts);
    }
  }

  lemma {:induction false} AndLoopReadable(left: QueryNode, ts: seq<Token>)
    requires Readable(left) && Legal(ts)
    ensures Readable(AndLoop(left, ts).node) && Legal(AndLoop(left, ts).rest)
    decreases |ts|, 2
  {
    if !Stops(ts) {
      NotReadable(ts);
      AndLoopReadable(And(left, ParseNot(ts).node), ParseNot(ts).rest);
    }
  }

  lemma {:induction false} AndReadable(ts: seq<Token>)
    requires Legal(ts)
    ensures Readable(ParseAnd(ts).node) && Legal(ParseAnd(ts).rest)
    decreases |ts|, 3
  {
    NotReadable(ts);
    AndLoopReadable(ParseNot(ts).node, ParseNot(ts).rest);
  }

  lemma {:induction false} OrLoopReadable(left: QueryNode, ts: seq<Token>)
    requires Readable(left) && Legal(ts) && Stops(ts)
    ensures Readable(OrLoop(left, ts).node) && Legal(OrLoop(left, ts).rest)
    decreases |ts|, 4
  {
    if ts != [] && ts[0] == OrTok {
      AndReadable(ts[1..]);
      OrLoopReadable(Or(left, ParseAnd(ts[1..]).node), ParseAnd(ts[1..]).rest);
    }
  }

  lemma {:induction false} OrReadable(ts: seq<Token>)
    requires Legal(ts)
    ensures Readable(ParseOr(ts).node) && Legal(ParseOr(ts).rest)
    decreases |ts|, 5
  {
    AndReadable(ts);
    OrLoopReadable(ParseAnd(ts).node, ParseAnd(ts).rest);
  }

  /** Every query text yields a readable tree. */
  lemma ParsedReadable(input: string)
    ensures Readable(ParseQuery(input))
  {
    var ts := Tokenize(input, 0);
    TokensLegal(input, 0);
    if ts != [] {
      OrReadable(ts);
    }
  }

  /** The text of a readable tree. */
  function RenderQuery(node: QueryNode): string {
    Render(Print(node, 0))
  }

  /** Parsing inverts rendering on every readable tree. */
  lemma ParseRender(node: QueryNode)
    requires Readable(node)
    ensures ParseQuery(RenderQuery(node)) == node
  {
    PrintLegal(node, 0);
    TokenizeRender(Print(node, 0));
    ReadableIsPrintable(node);
    ParsePrint(node);
  }

  /** Parse, render, parse is parse: every input. */
  lemma QueryStable(input: string)
    ensures ParseQuery(RenderQuery(ParseQuery(input))) == ParseQuery(input)
  {
    ParsedReadable(input);
    ParseRender(ParseQuery(input));
  }

  // ─── An explicit AND is neutral ───

  /** The tree without the empty filters that were conjoined to something. */
  function Strip(node: QueryNode): QueryNode {
    match node
    case Filter(_) => node
    case And(l, r) => if Strip(r) == EMPTY_FILTER then Strip(l) else And(Strip(l), Strip(r))
    case Or(l, r) => Or(Strip(l), Strip(r))
    case Not(inner) => Not(Strip(inner))
  }

  lemma {:induction false} StripParams(node: QueryNode)
    ensures Vacuous(Strip(node)) == Vacuous(node) && LiveParams(Strip(node)) == LiveParams(node)
  {
    match node
    case Filter(_) =>
    case And(l, r) => StripParams(l); StripParams(r);
    case Or(l, r) => StripParams(l); StripParams(r);
    case Not(inner) => StripParams(inner);
  }

  lemma AndStripNumbers(l: QueryNode, r: QueryNode, base: nat)
    requires CodeNumbers(Strip(l), base) == CodeNumbers(l, base)
    requires CodeNumbers(Strip(r), base + |LiveParams(l)|) == CodeNumbers(r, base + |LiveParams(l)|)
    ensures CodeNumbers(Strip(And(l, r)), base) == CodeNumbers(And(l, r), base)
  {
    hide CodeNumbers, LiveParams;
    StripParams(l);
    AndNumbers(l, r, base);
    if Strip(r) == EMPTY_FILTER {
      EmptyNumbers(base + |LiveParams(l)|);
    } else {
      AndNumbers(Strip(l), Strip(r), base);
    }
  }

  lemma EmptyNumbers(base: nat)
    ensures CodeNumbers(EMPTY_FILTER, base) == []
  {
  }

  lemma {:induction false} StripNumbers(node: QueryNode, base: nat)
    ensures CodeNumbers(Strip(node), base) == CodeNumbers(node, base)
  {
    match node
    case Filter(_) =>
    case And(l, r) =>
      StripNumbers(l, base);
      StripNumbers(r, base + |LiveParams(l)|);
      hide Strip, CodeNumbers, LiveParams;
      AndStripNumbers(l, r, base);
    case Or(l, r) =>
      StripNumbers(l, 0);
      StripNumbers(r, 0);
      StripParams(l);
      StripParams(r);
      hide LiveParams;
    case Not(inner) => StripNumbers(inner, 0);
  }

  lemma {:induction false} StripBuild(node: QueryNode, args: seq<Arg>)
    requires |args| == |LiveParams(node)|
    ensures LiveParams(Strip(node)) == LiveParams(node)
    ensures Build(Strip(node), args, false) == Build(node, args, false)
  {
    StripParams(node);
    hide OrCondition, NotCondition, LeafCondition;
    match node
    case Filter(_) =>
    case And(l, r) =>
      var n := |LiveParams(l)|;
      StripBuild(l, args[..n]);
      StripBuild(r, args[n..]);
      if Strip(r) == EMPTY_FILTER {
        assert args[..n] == args && args[n..] == [];
        assert Build(r, [], false) == [];
      }
    case Or(l, r) =>
      if !Vacuous(node) {
        StripBuild(l, args[..|LiveParams(l)|]);
        StripBuild(r, args[|LiveParams(l)|..]);
        StripParams(l);
        StripParams(r);
      }
    case Not(inner) =>
      if !Vacuous(node) {
        StripBuild(inner, args);
        StripParams(inner);
      }
  }

  /** Stripping changes neither the clause nor the parameters. */
  lemma StripCompiles(node: QueryNode)
    ensures Clause(Strip(node)) == Clause(node) && LiveParams(Strip(node)) == LiveParams(node)
  {
    StripParams(node);
    StripNumbers(node, 0);
    StripBuild(node, Holes(CodeNumbers(node, 0)));
  }

  predicate EndsOperand(ts: seq<Token>) {
    ts != [] && var t := ts[|ts| - 1]; t.KeyVal? || t.BareWord? || t == RParen
  }

  lemma {:induction false} AndLoopStrip(a: QueryNode, b: QueryNode, ts: seq<Token>)
    requires Strip(a) == Strip(b)
    ensures AndLoop(a, ts).rest == AndLoop(b, ts).rest
    ensures Strip(AndLoop(a, ts).node) == Strip(AndLoop(b, ts).node)
    decreases |ts|
  {
    if !Stops(ts) {
      var p := ParseNot(ts);
      AndLoopStrip(And(a, p.node), And(b, p.node), p.rest);
    }
  }

  lemma {:induction false} OrLoopStrip(a: QueryNode, b: QueryNode, ts: seq<Token>)
    requires Strip(a) == Strip(b) && Stops(ts)
    ensures OrLoop(a, ts).rest == OrLoop(b, ts).rest
    ensures Strip(OrLoop(a, ts).node) == Strip(OrLoop(b, ts).node)
    decreases |ts|
  {
    if ts != [] && ts[0] == OrTok {
      var p := ParseAnd(ts[1..]);
      OrLoopStrip(Or(a, p.node), Or(b, p.node), p.rest);
    }
  }

  /**
   How a procedure fares on `pre AND post` and on `pre post`: it stops at the
   same token `q` of `pre` (or at its end), or both runs pass the AND and differ
   by empty filters only.
   */
  ghost predicate Tracks(x: Parsed, y: Parsed, post: seq<Token>, cut: Option<seq<Token>>) {
    match cut
    case Some(q) =>
      && x == Parsed(y.node, q + [AndTok] + post)
      && y.rest == q + post
      && (q == [] || EndsOperand(q))
    case None => x.rest == y.rest && Strip(x.node) == Strip(y.node)
  }

  lemma {:induction false} AtomTracks(pre: seq<Token>, post: seq<Token>) returns (cut: Option<seq<Token>>)
    requires EndsOperand(pre)
    ensures Tracks(ParseAtom(pre + [AndTok] + post), ParseAtom(pre + post), post, cut)
    decreases |pre|, 0
  {
    var xs, ys := pre + [AndTok] + post, pre + post;
    assert xs[1..] == pre[1..] + [AndTok] + post && ys[1..] == pre[1..] + post;
    if pre[0] == LParen {
      cut := OrTracks(pre[1..], post);
      if cut.Some? && cut.value[0] == RParen {
        var q := cut.value;
        assert (q + [AndTok] + post)[1..] == q[1..] + [AndTok] + post && (q + post)[1..] == q[1..] + post;
        cut := Some(q[1..]);
      }
    } else {
      cut := Some(pre[1..]);
    }
  }

  lemma {:induction false} NotTracks(pre: seq<Token>, post: seq<Token>) returns (cut: Option<seq<Token>>)
    requires EndsOperand(pre)
    ensures Tracks(ParseNot(pre + [AndTok] + post), ParseNot(pre + post), post, cut)
    decreases |pre|, 1
  {
    var xs, ys := pre + [AndTok] + post, pre + post;
    if pre[0] == NotTok {
      assert xs[1..] == pre[1..] + [AndTok] + post && ys[1..] == pre[1..] + post;
      cut := AtomTracks(pre[1..], post);
    } else {
      cut := AtomTracks(pre, post);
    }
  }

  /** Between operands, the AND is read as one more, empty, operand. */
  lemma AndLoopPassesAnd(left: QueryNode, post: seq<Token>)
    ensures AndLoop(left, [AndTok] + post).rest == AndLoop(left, post).rest
    ensures Strip(AndLoop(left, [AndTok] + post).node) == Strip(AndLoop(left, post).node)
  {
    assert ([AndTok] + post)[1..] == post;
    assert ParseNot([AndTok] + post) == ParseAtom([AndTok] + post) == Parsed(EMPTY_FILTER, post);
    AndLoopStrip(And(left, EMPTY_FILTER), left, post);
  }

  lemma {:induction false} AndLoopTracks(left: QueryNode, pre: seq<Token>, post: seq<Token>)
    returns (cut: Option<seq<Token>>)
    requires pre == [] || EndsOperand(pre)
    ensures Tracks(AndLoop(left, pre + [AndTok] + post), AndLoop(left, pre + post), post, cut)
    ensures cut.Some? ==> cut.value != []
    decreases |pre|, 2
  {
    var xs, ys := pre + [AndTok] + post, pre + post;
    if pre == [] {
      assert xs == [AndTok] + post && ys == post;
      AndLoopPassesAnd(left, post);
      return None;
    }
    if Stops(pre) {
      return Some(pre);
    }
    cut := NotTracks(pre, post);
    var x, y := ParseNot(xs), ParseNot(ys);
    if cut.Some? {
      NotProgress(pre, post, cut.value);
      cut := AndLoopTracks(And(left, y.node), cut.value, post);
    } else {
      AndLoopStrip(And(left, x.node), And(left, y.node), x.rest);
    }
  }

  lemma NotProgress(pre: seq<Token>, post: seq<Token>, q: seq<Token>)
    requires pre != [] && ParseNot(pre + post).rest == q + post
    ensures |q| < |pre|
  {
  }

  lemma {:induction false} AndTracks(pre: seq<Token>, post: seq<Token>) returns (cut: Option<seq<Token>>)
    requires EndsOperand(pre)
    ensures Tracks(ParseAnd(pre + [AndTok] + post), ParseAnd(pre + post), post, cut)
    ensures cut.Some? ==> cut.value != []
    decreases |pre|, 3
  {
    cut := NotTracks(pre, post);
    var x, y := ParseNot(pre + [AndTok] + post), ParseNot(pre + post);
    if cut.Some? {
      NotProgress(pre, post, cut.value);
      cut := AndLoopTracks(y.node, cut.value, post);
    } else {
      AndLoopStrip(x.node, y.node, x.rest);
    }
  }

  lemma {:induction false} OrLoopTracks(left: QueryNode, pre: seq<Token>, post: seq<Token>)
    returns (cut: Option<seq<Token>>)
    requires EndsOperand(pre) && Stops(pre)
    ensures Tracks(OrLoop(left, pre + [AndTok] + post), OrLoop(left, pre + post), post, cut)
    ensures cut.Some? ==> cut.value != []
    decreases |pre|, 4
  {
    if pre[0] == RParen {
      return Some(pre);
    }
    var xs, ys := pre + [AndTok] + post, pre + post;
    assert xs[1..] == pre[1..] + [AndTok] + post && ys[1..] == pre[1..] + post;
    cut := AndTracks(pre[1..], post);
    var x, y := ParseAnd(xs[1..]), ParseAnd(ys[1..]);
    if cut.Some? {
      var q := cut.value;
      assert y.rest[0] == q[0];
      assert |y.rest| <= |ys[1..]|;
      cut := OrLoopTracks(Or(left, y.node), q, post);
    } else {
      OrLoopStrip(Or(left, x.node), Or(left, y.node), x.rest);
    }
  }

  lemma {:induction false} OrTracks(pre: seq<Token>, post: seq<Token>) returns (cut: Option<seq<Token>>)
    requires EndsOperand(pre)
    ensures Tracks(ParseOr(pre + [AndTok] + post), ParseOr(pre + post), post, cut)
    ensures cut.Some? ==> cut.value != []
    decreases |pre|, 5
  {
    cut := AndTracks(pre, post);
    var x, y := ParseAnd(pre + [AndTok] + post), ParseAnd(pre + post);
    if cut.Some? {
      assert y.rest[0] == cut.value[0];
      assert |y.rest| <= |pre + post|;
      cut := OrLoopTracks(y.node, cut.value, post);
    } else {
      OrLoopStrip(x.node, y.node, x.rest);
    }
  }

  /**
   An AND right after a filter, a word or a closing parenthesis can be left out
   of any query: the clause and the parameters are the same.
   */
  lemma AndIsNeutral(pre: seq<Token>, post: seq<Token>)
    requires EndsOperand(pre)
    ensures Clause(Parse(pre + [AndTok] + post)) == Clause(Parse(pre + post))
    ensures LiveParams(Parse(pre + [AndTok] + post)) == LiveParams(Parse(pre + post))
  {
    var cut := OrTracks(pre, post);
    var a, b := Parse(pre + [AndTok] + post), Parse(pre + post);
    assert Strip(a) == Strip(b);
    StripCompiles(a);
    StripCompiles(b);
  }

  /** Right after a NOT it cannot: `NOT AND w` asks for rows with the word, `NOT w` for rows without. */
  lemma AndAfterNot(w: string)
    requires w != ""
    ensures Clause(Parse([NotTok, AndTok, BareWord(w)])) != Clause(Parse([NotTok, BareWord(w)]))
  {
    AndSwallowed(w);
    NotWord(w);
    hide Clause, Parse;
    var word := Filter(FilterTerm("", Default, w, false));
    FirstToken(word);
    NegatedWord(word);
  }

  lemma OneWord(w: string)
    ensures ParseNot([BareWord(w)]) == ParseAtom([BareWord(w)])
         == Parsed(Filter(FilterTerm("", Default, w, false)), [])
  {
    assert [BareWord(w)][1..] == [];
  }

  lemma NotWord(w: string)
    ensures Parse([NotTok, BareWord(w)]) == Not(Filter(FilterTerm("", Default, w, false)))
  {
    var ts := [NotTok, BareWord(w)];
    assert ts[1..] == [BareWord(w)];
    OneWord(w);
    var not := Not(Filter(FilterTerm("", Default, w, false)));
    assert ParseNot(ts) == Parsed(not, []);
    assert AndLoop(not, []) == Parsed(not, []) == OrLoop(not, []);
    assert ParseAnd(ts) == Parsed(not, []);
  }

  /** The AND after a NOT is its operand, and an empty one. */
  lemma AndSwallowed(w: string)
    ensures Parse([NotTok, AndTok, BareWord(w)])
         == And(Not(EMPTY_FILTER), Filter(FilterTerm("", Default, w, false)))
  {
    var ts := [NotTok, AndTok, BareWord(w)];
    assert ts[1..] == [AndTok, BareWord(w)] && ts[1..][1..] == [BareWord(w)];
    assert ParseNot(ts) == Parsed(Not(EMPTY_FILTER), [BareWord(w)]);
    OneWord(w);
    hide ParseNot, ParseAtom;
    var both := And(Not(EMPTY_FILTER), Filter(FilterTerm("", Default, w, false)));
    assert AndLoop(both, []) == Parsed(both, []) == OrLoop(both, []);
    assert AndLoop(Not(EMPTY_FILTER), [BareWord(w)]) == AndLoop(both, []);
    assert ParseAnd(ts) == Parsed(both, []);
  }

  lemma NegatedWord(word: QueryNode)
    requires word.Filter? && word.term.key == "" && word.term.value != "" && !word.term.negate
    ensures Clause(Not(word)) != [] && Clause(Not(word))[0] == NotKw
    ensures Clause(And(Not(EMPTY_FILTER), word)) == Clause(word)
  {
    var n := CodeNumbers(word, 0);
    EmittedWf(word, 0);
    GroupText(Glue(Emitted(word, 0), false));
    assert LiveParams(Not(EMPTY_FILTER)) == [];
    assert CodeNumbers(And(Not(EMPTY_FILTER), word), 0) == n;
    BuildAnd(Not(EMPTY_FILTER), word, [], Holes(n), false);
    assert [] + Holes(n) == Holes(n);
    assert Build(Not(EMPTY_FILTER), [], false) == [];
    assert [] + Build(word, Holes(n), false) == Build(word, Holes(n), false);
  }

  lemma FirstToken(word: QueryNode)
    requires word.Filter? && word.term.key == "" && word.term.value != "" && !word.term.negate
    ensures Clause(word) != [] && Clause(word)[0].Cmp?
  {
    var arg := Hole(1);
    assert Emitted(word, 0) == [WordAlternatives(FULL_TEXT_COLUMNS, arg)];
    AtomText(WordIn(FULL_TEXT_COLUMNS[0]), arg);
    var d := WordAlternatives(FULL_TEXT_COLUMNS, arg);
    PrintOrAppend([d[0]], d[1..]);
    assert d == [d[0]] + d[1..];
  }
}
