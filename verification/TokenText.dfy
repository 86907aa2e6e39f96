/**
 Token lists written as text with quoted values, and the proof that the
 tokenizer inverts the writer: on every list of tokens it can itself produce,
 it reads them back.
 */
module TokenText {
  import opened Query
  import opened Text
  import opened Tokenizing
  import opened Spelling

  // ─── Writing tokens back as text ───

  /** Every character as it is, a quote or a backslash after a backslash. */
  function Escaped(v: string): seq<Mark> {
    seq(|v|, i requires 0 <= i < |v| => Mark(v[i], v[i] == '"' || v[i] == '\\'))
  }

  function InFull(v: string): Value {
    Quoted(Escaped(v), Closed)
  }

  function OpName(op: FilterOp): string {
    match op
    case Default => ""
    case Contains => "contains"
    case IContains => "icontains"
    case Regex => "regex"
    case Equals => "equals"
    case Startswith => "startswith"
    case Endswith => "endswith"
  }

  /** `.op:"value"`, or `:"value"`. */
  function WrittenTail(op: FilterOp, value: string): Tail {
    if op == Default then Plain("", InFull(value)) else WithOp(OpName(op), op, "", Some(""), InFull(value))
  }

  /** The one spelling a token is written in. */
  function Written(t: Token): Spelled {
    match t
    case KeyVal(key, op, value) => KeyedBy(key, WrittenTail(op, value))
    case BareWord(word) => InQuotes(InFull(word))
    case AndTok => Keyword("AND")
    case OrTok => Keyword("OR")
    case NotTok => Keyword("NOT")
    case LParen => Symbol('(')
    case RParen => Symbol(')')
  }

  function RenderToken(t: Token): string {
    SpelledText(Written(t))
  }

  /** Tokens separated by single spaces. */
  function Render(ts: seq<Token>): string {
    if ts == [] then ""
    else if |ts| == 1 then RenderToken(ts[0])
    else RenderToken(ts[0]) + " " + Render(ts[1..])
  }

  predicate LegalToken(t: Token) {
    t.KeyVal? ==> LegalKey(t.key)
  }

  predicate Legal(ts: seq<Token>) {
    forall i :: 0 <= i < |ts| ==> LegalToken(ts[i])
  }

  // ─── Reading them again ───

  lemma InFullDenotes(v: string)
    ensures ValueOk(InFull(v)) && Denotes(InFull(v)) == v
  {
    assert Chars(Escaped(v)) == v;
  }

  /** A written token is a spelling of it, wherever no word goes on after it. */
  lemma WrittenOk(t: Token, s: string, q: nat)
    requires LegalToken(t) && WordStops(s, q)
    ensures SpelledOk(Written(t)) && TokenOf(Written(t)) == t && Fits(s, q, Written(t))
  {
    match t
    case KeyVal(key, op, v) =>
      WrittenTailOk(op, v, s, q);
      hide LegalKey, TailOk, TailFits, TailOp, TailValue, TailText, WrittenTail;
      KeySpelling(key, WrittenTail(op, v));
    case BareWord(w) => InFullDenotes(w);
    case AndTok => KeywordsWritten();
    case OrTok => KeywordsWritten();
    case NotTok => KeywordsWritten();
    case _ =>
  }

  lemma KeywordsWritten()
    ensures Lower("AND") == "and" && Lower("OR") == "or" && Lower("NOT") == "not"
    ensures IsWord("AND") && IsWord("OR") && IsWord("NOT")
  {
  }

  lemma WrittenTailOk(op: FilterOp, v: string, s: string, q: nat)
    ensures var tail := WrittenTail(op, v);
      && !tail.NoValue? && TailOk(tail) && TailFits(s, q, tail)
      && TailOp(tail) == op && TailValue(tail) == v
  {
    InFullDenotes(v);
    hide ValueOk, Denotes, Escaped;
  }

  lemma TokenAt(s: string, p: nat, t: Token)
    requires LegalToken(t) && At(s, p, RenderToken(t)) && WordStops(s, p + |RenderToken(t)|)
    ensures Next(s, p) == Lexeme(t, p + |RenderToken(t)|)
  {
    hide At, SpelledText, Written, LegalToken, WordStops, SpelledOk, Fits, TokenOf, Next;
    WrittenOk(t, s, p + |RenderToken(t)|);
    SpellingRead(s, p, Written(t));
  }

  lemma {:induction false} TokensAt(s: string, p: nat, ts: seq<Token>)
    requires Legal(ts) && At(s, p, Render(ts)) && p + |Render(ts)| == |s|
    ensures Tokenize(s, p) == ts
    decreases |ts|
  {
    hide At, RenderToken, LegalToken, Next;
    if ts == [] {
      NothingLeft(s);
    } else if |ts| == 1 {
      TokenAt(s, p, ts[0]);
      assert ts == [ts[0]];
    } else {
      var q := p + |RenderToken(ts[0])|;
      assert Render(ts) == RenderToken(ts[0]) + (" " + Render(ts[1..]));
      AtSplit(s, p, RenderToken(ts[0]), " " + Render(ts[1..]));
      AtSplit(s, q, " ", Render(ts[1..]));
      AtHead(s, q, " ");
      TokenAt(s, p, ts[0]);
      TokensAt(s, q + 1, ts[1..]);
      GapSkipped(s, q, " ");
      assert ts == [ts[0]] + ts[1..];
    }
  }

  /** Reading inverts writing on every list of legal tokens. */
  lemma TokenizeRender(ts: seq<Token>)
    requires Legal(ts)
    ensures Tokenize(Render(ts), 0) == ts
  {
    var s := Render(ts);
    assert s[0..|s|] == s;
    TokensAt(s, 0, ts);
  }

  // ─── Every token read is legal ───

  lemma KeyedLegal(sp: Spelled)
    requires SpelledOk(sp)
    ensures LegalToken(TokenOf(sp))
  {
    if sp.Keyed? {
      hide LegalPart, LegalFirst;
      SplitOfDotted([sp.first] + sp.parts);
    }
  }

  lemma {:induction false} SplitOfDotted(parts: seq<string>)
    requires parts != [] && forall i :: 0 <= i < |parts| ==> NoDot(parts[i])
    ensures Split(Dotted(parts)) == parts
    decreases |parts|
  {
    if |parts| == 1 {
      SplitWord(parts[0]);
      assert parts == [parts[0]];
    } else {
      SplitOfDotted(parts[1..]);
      SplitDotted(parts[0], Dotted(parts[1..]));
      assert parts == [parts[0]] + parts[1..];
    }
  }

  lemma {:induction false} TokensLegal(s: string, p: nat)
    requires p <= |s|
    ensures Legal(Tokenize(s, p))
    decreases |s| - p
  {
    hide Stands, LegalToken, TokenOf, SpelledText, At;
    if SkipSpaces(s, p) < |s| {
      var gap, sp := FirstItem(s, p);
      GapSkipped(s, p, gap);
      SpellingRead(s, p + |gap|, sp);
      StandingLegal(s, p + |gap|, sp);
      TokensLegal(s, p + |gap| + |SpelledText(sp)|);
    }
  }

  lemma StandingLegal(s: string, p: nat, sp: Spelled)
    requires Stands(s, p, sp)
    ensures LegalToken(TokenOf(sp))
  {
    KeyedLegal(sp);
  }

  /** Text read, written and read again gives the same tokens: every input. */
  lemma RenderStable(s: string)
    ensures Tokenize(Render(Tokenize(s, 0)), 0) == Tokenize(s, 0)
  {
    TokensLegal(s, 0);
    TokenizeRender(Tokenize(s, 0));
  }
}
