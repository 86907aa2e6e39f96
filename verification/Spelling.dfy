/**
 The spellings of a query, as a grammar apart from the tokenizer: every way to
 write a token, with quotes or without, with or without the colon after an
 operator, in any case, and what may follow it. The tokenizer reads every
 spelling as its token, and every text is spelled in some way.
 */
module Spelling {
  import opened Query
  import opened Text
  import opened Tokenizing

  // ─── The grammar ───

  predicate IsWord(w: string) {
    forall i :: 0 <= i < |w| ==> IsWordChar(w[i])
  }

  predicate AllSpace(gap: string) {
    forall i :: 0 <= i < |gap| ==> IsSpace(gap[i])
  }

  /** How the six operators are written. */
  predicate Names(name: string, op: FilterOp) {
    || (name == "contains" && op == Contains)
    || (name == "icontains" && op == IContains)
    || (name == "regex" && op == Regex)
    || (name == "equals" && op == Equals)
    || (name == "startswith" && op == Startswith)
    || (name == "endswith" && op == Endswith)
  }

  predicate IsKeyword(w: string) {
    Lower(w) == "and" || Lower(w) == "or" || Lower(w) == "not"
  }

  /** The first part of a key, or a bare word. */
  predicate LegalFirst(w: string) {
    w != "" && IsWord(w) && StartsWord(w[0]) && !IsKeyword(w)
  }

  /** A later part of a key is no operator. */
  predicate LegalPart(w: string) {
    IsWord(w) && forall op :: !Names(w, op)
  }

  /** A character inside quotes, with or without a backslash before it. */
  datatype Mark = Mark(c: char, escaped: bool)

  /** The end of a quoted text; only the end of the input can stand in for the closing quote. */
  datatype Closing = Closed | Cut | CutAfterBackslash

  datatype Value = Quoted(marks: seq<Mark>, closing: Closing) | Unquoted(word: string)

  /** What follows the parts of a key. */
  datatype Tail =
    | NoValue
    | Plain(gap: string, value: Value)
    | WithOp(name: string, op: FilterOp, before: string, colon: Option<string>, value: Value)

  datatype Spelled =
    | Symbol(c: char)
    | Minus
    | Dash
    | InQuotes(value: Value)
    | PlainWord(word: string)
    | Keyword(word: string)
    | Keyed(first: string, parts: seq<string>, tail: Tail)

  function MarkText(m: Mark): string {
    if m.escaped then ['\\', m.c] else [m.c]
  }

  function MarksText(ms: seq<Mark>): string {
    if ms == [] then "" else MarkText(ms[0]) + MarksText(ms[1..])
  }

  function ClosingText(closing: Closing): string {
    match closing case Closed => "\"" case Cut => "" case CutAfterBackslash => "\\"
  }

  function ValueText(v: Value): string {
    match v
    case Quoted(marks, closing) => "\"" + (MarksText(marks) + ClosingText(closing))
    case Unquoted(word) => word
  }

  /** A colon, and the spaces after it. */
  function ColonText(colon: Option<string>): string {
    match colon case Some(gap) => ":" + gap case None => ""
  }

  function OpValueText(before: string, colon: Option<string>, value: Value): string {
    before + (ColonText(colon) + ValueText(value))
  }

  function TailText(tail: Tail): string {
    match tail
    case NoValue => ""
    case Plain(gap, value) => ":" + (gap + ValueText(value))
    case WithOp(name, _, before, colon, value) => "." + (name + OpValueText(before, colon, value))
  }

  function PartsText(parts: seq<string>, tail: Tail): string {
    if parts == [] then TailText(tail) else "." + (parts[0] + PartsText(parts[1..], tail))
  }

  function SpelledText(sp: Spelled): string {
    match sp
    case Symbol(c) => [c]
    case Minus => "-"
    case Dash => "-"
    case InQuotes(value) => ValueText(value)
    case PlainWord(word) => word
    case Keyword(word) => word
    case Keyed(first, parts, tail) => first + PartsText(parts, tail)
  }

  // ─── What a spelling stands for ───

  function Chars(ms: seq<Mark>): (text: string)
    ensures |text| == |ms| && forall i :: 0 <= i < |ms| ==> text[i] == ms[i].c
  {
    seq(|ms|, i requires 0 <= i < |ms| => ms[i].c)
  }

  function Denotes(v: Value): string {
    match v
    case Quoted(marks, _) => Chars(marks)
    case Unquoted(word) => word
  }

  function TailOp(tail: Tail): FilterOp {
    if tail.WithOp? then tail.op else Default
  }

  function TailValue(tail: Tail): string {
    if tail.NoValue? then "" else Denotes(tail.value)
  }

  function TokenOf(sp: Spelled): Token {
    match sp
    case Symbol(c) => if c == '(' then LParen else if c == ')' then RParen else BareWord([c])
    case Minus => NotTok
    case Dash => BareWord("-")
    case InQuotes(value) => BareWord(Denotes(value))
    case PlainWord(word) => BareWord(word)
    case Keyword(word) => if Lower(word) == "and" then AndTok else if Lower(word) == "or" then OrTok else NotTok
    case Keyed(first, parts, tail) => KeyVal(Dotted([first] + parts), TailOp(tail), TailValue(tail))
  }

  // ─── What may be written, and what may follow it ───

  predicate MarksOk(ms: seq<Mark>) {
    forall i :: 0 <= i < |ms| ==> ms[i].escaped || (ms[i].c != '"' && ms[i].c != '\\')
  }

  predicate ValueOk(v: Value) {
    match v
    case Quoted(marks, _) => MarksOk(marks)
    case Unquoted(word) => IsWord(word)
  }

  /** Something must part a word from the operator. */
  predicate OpValueOk(before: string, colon: Option<string>, value: Value) {
    && AllSpace(before) && (colon.Some? ==> AllSpace(colon.value)) && ValueOk(value)
    && (before == "" && colon.None? && value.Unquoted? ==> value.word == "")
  }

  predicate TailOk(tail: Tail) {
    match tail
    case NoValue => true
    case Plain(gap, value) => AllSpace(gap) && ValueOk(value)
    case WithOp(name, op, before, colon, value) => Names(name, op) && OpValueOk(before, colon, value)
  }

  predicate SpelledOk(sp: Spelled) {
    match sp
    case Symbol(c) => c != '-' && c != '"' && !IsSpace(c) && !StartsWord(c)
    case Minus => true
    case Dash => true
    case InQuotes(value) => value.Quoted? && ValueOk(value)
    case PlainWord(word) => LegalFirst(word)
    case Keyword(word) => IsWord(word) && IsKeyword(word)
    case Keyed(first, parts, tail) =>
      && LegalFirst(first) && (forall i :: 0 <= i < |parts| ==> LegalPart(parts[i])) && TailOk(tail)
      && (tail.NoValue? ==> parts != [])
  }

  /** No character of a word stands there. */
  predicate WordStops(s: string, q: nat) {
    q >= |s| || !IsWordChar(s[q])
  }

  /** A value ends there: a word with the word, an empty one before neither space nor quote. */
  predicate ValueFits(s: string, q: nat, v: Value) {
    match v
    case Quoted(_, closing) => closing == Closed || q == |s|
    case Unquoted(word) => WordStops(s, q) && (word == "" && q < |s| ==> !IsSpace(s[q]) && s[q] != '"')
  }

  /** Without a colon, an empty value is not before one. */
  predicate OpValueFits(s: string, q: nat, colon: Option<string>, value: Value) {
    ValueFits(s, q, value) && (colon.None? && value == Unquoted("") && q < |s| ==> s[q] != ':')
  }

  predicate TailFits(s: string, q: nat, tail: Tail) {
    match tail
    case NoValue => WordStops(s, q) && !AtKey(s, q)
    case Plain(_, value) => ValueFits(s, q, value)
    case WithOp(_, _, _, colon, value) => OpValueFits(s, q, colon, value)
  }

  predicate Fits(s: string, q: nat, sp: Spelled) {
    match sp
    case Symbol(_) => true
    case Minus => q < |s| && !IsSpace(s[q])
    case Dash => q >= |s| || IsSpace(s[q])
    case InQuotes(value) => ValueFits(s, q, value)
    case PlainWord(_) => WordStops(s, q) && !AtKey(s, q)
    case Keyword(_) => WordStops(s, q)
    case Keyed(_, _, tail) => TailFits(s, q, tail)
  }

  /** Spaces, and a spelling after them. */
  datatype Item = Item(gap: string, spelled: Spelled)

  /** The text `t` stands at position `p`. */
  predicate At(s: string, p: nat, t: string) {
    p + |t| <= |s| && s[p..p + |t|] == t
  }

  /** The spelling stands at position `p`. */
  predicate Stands(s: string, p: nat, sp: Spelled) {
    SpelledOk(sp) && At(s, p, SpelledText(sp)) && Fits(s, p + |SpelledText(sp)|, sp)
  }

  /** The rest of the text is these items, and spaces. */
  predicate SpelledAs(s: string, p: nat, items: seq<Item>)
    decreases |items|
  {
    p <= |s|
    && if items == [] then AllSpace(s[p..])
       else
         var q := p + |items[0].gap|;
         && At(s, p, items[0].gap) && AllSpace(items[0].gap) && Stands(s, q, items[0].spelled)
         && SpelledAs(s, q + |SpelledText(items[0].spelled)|, items[1..])
  }

  function TokensOf(items: seq<Item>): seq<Token> {
    if items == [] then [] else [TokenOf(items[0].spelled)] + TokensOf(items[1..])
  }

  // ─── Reading one piece of text where it stands ───

  lemma AtSplit(s: string, p: nat, a: string, b: string)
    ensures At(s, p, a + b) <==> At(s, p, a) && At(s, p + |a|, b)
  {
    if At(s, p, a + b) {
      assert s[p..p + |a|] == (a + b)[..|a|] == a;
      assert s[p + |a|..p + |a| + |b|] == (a + b)[|a|..] == b;
    }
    if At(s, p, a) && At(s, p + |a|, b) {
      assert s[p..p + |a + b|] == s[p..p + |a|] + s[p + |a|..p + |a| + |b|];
    }
  }

  lemma AtHead(s: string, p: nat, t: string)
    requires At(s, p, t) && t != ""
    ensures p < |s| && s[p] == t[0] && At(s, p + 1, t[1..])
  {
    AtSplit(s, p, [t[0]], t[1..]);
    assert t == [t[0]] + t[1..];
    assert s[p..p + 1][0] == s[p];
  }

  lemma AtSlice(s: string, p: nat, q: nat)
    requires p <= q <= |s|
    ensures At(s, p, s[p..q]) && p + |s[p..q]| == q
  {
  }

  lemma {:induction false} WordEndsAt(s: string, p: nat, w: string)
    requires At(s, p, w) && IsWord(w) && WordStops(s, p + |w|)
    ensures WordEnd(s, p) == p + |w| && s[p..p + |w|] == w
    decreases |w|
  {
    if w != "" {
      AtHead(s, p, w);
      WordEndsAt(s, p + 1, w[1..]);
    }
  }

  lemma {:induction false} SpacesSkipped(s: string, p: nat, gap: string)
    requires At(s, p, gap) && AllSpace(gap)
    ensures SkipSpaces(s, p) == SkipSpaces(s, p + |gap|)
    decreases |gap|
  {
    if gap != "" {
      AtHead(s, p, gap);
      SpacesSkipped(s, p + 1, gap[1..]);
    }
  }

  lemma SkippedAreSpaces(s: string, p: nat)
    requires p <= |s|
    ensures AllSpace(s[p..SkipSpaces(s, p)])
    decreases |s| - p
  {
    var q := SkipSpaces(s, p);
    if p < |s| && IsSpace(s[p]) {
      SkippedAreSpaces(s, p + 1);
      assert s[p..q] == [s[p]] + s[p + 1..q];
    }
  }

  lemma OpIsNamed(name: string, op: FilterOp)
    ensures OpOf(name) == Some(op) <==> Names(name, op)
    ensures Names(name, op) ==> IsWord(name)
  {
  }

  lemma PartIsNoOp(part: string)
    ensures OpOf(part) == None <==> forall op :: !Names(part, op)
  {
    forall op ensures OpOf(part) == Some(op) <==> Names(part, op) {
      OpIsNamed(part, op);
    }
  }

  lemma MarkRead(s: string, p: nat, m: Mark, tail: string)
    requires At(s, p, MarkText(m) + tail) && (m.escaped || (m.c != '"' && m.c != '\\'))
    ensures var q := p + |MarkText(m)|;
      && At(s, q, tail)
      && QuotedText(s, p) == Piece([m.c] + QuotedText(s, q).text, QuotedText(s, q).end)
  {
    AtSplit(s, p, MarkText(m), tail);
    AtHead(s, p, MarkText(m));
    if m.escaped {
      AtHead(s, p + 1, MarkText(m)[1..]);
    }
  }

  lemma ClosingRead(s: string, p: nat, closing: Closing)
    requires At(s, p, ClosingText(closing)) && (closing == Closed || p + |ClosingText(closing)| == |s|)
    ensures QuotedText(s, p) == Piece("", p + |ClosingText(closing)|)
  {
    if closing != Cut {
      AtHead(s, p, ClosingText(closing));
    }
  }

  lemma MarksSplit(ms: seq<Mark>, more: string)
    requires ms != []
    ensures MarksText(ms) + more == MarkText(ms[0]) + (MarksText(ms[1..]) + more)
    ensures Chars(ms) == [ms[0].c] + Chars(ms[1..])
  {
    assert MarksText(ms) == MarkText(ms[0]) + MarksText(ms[1..]);
    hide MarksText, MarkText;
    ThreeParts(MarkText(ms[0]), MarksText(ms[1..]), more);
  }

  lemma {:induction false} MarksRead(s: string, p: nat, ms: seq<Mark>, closing: Closing)
    requires At(s, p, MarksText(ms) + ClosingText(closing)) && MarksOk(ms)
    requires closing == Closed || p + |MarksText(ms) + ClosingText(closing)| == |s|
    ensures QuotedText(s, p) == Piece(Chars(ms), p + |MarksText(ms) + ClosingText(closing)|)
    decreases |ms|
  {
    if ms == [] {
      assert MarksText(ms) + ClosingText(closing) == ClosingText(closing);
      ClosingRead(s, p, closing);
    } else {
      hide At, QuotedText, MarkText, MarksText, Chars, ClosingText;
      MarksSplit(ms, ClosingText(closing));
      MarkRead(s, p, ms[0], MarksText(ms[1..]) + ClosingText(closing));
      MarksRead(s, p + |MarkText(ms[0])|, ms[1..], closing);
    }
  }

  /** A quoted text, from its opening quote on. */
  lemma QuotedRead(s: string, p: nat, v: Value)
    requires v.Quoted? && ValueOk(v) && At(s, p, ValueText(v)) && ValueFits(s, p + |ValueText(v)|, v)
    ensures p < |s| && s[p] == '"' && QuotedText(s, p + 1) == Piece(Denotes(v), p + |ValueText(v)|)
  {
    var inner := MarksText(v.marks) + ClosingText(v.closing);
    AtSplit(s, p, "\"", inner);
    AtHead(s, p, "\"");
    MarksRead(s, p + 1, v.marks, v.closing);
  }

  lemma SkipTwice(s: string, p: nat)
    requires p <= |s|
    ensures SkipSpaces(s, SkipSpaces(s, p)) == SkipSpaces(s, p)
    ensures ValueAt(s, SkipSpaces(s, p)) == ValueAt(s, p)
  {
  }

  /** A value where it stands. */
  lemma ValueHere(s: string, p: nat, v: Value)
    requires At(s, p, ValueText(v)) && ValueOk(v) && ValueFits(s, p + |ValueText(v)|, v)
    ensures SkipSpaces(s, p) == p && ValueAt(s, p) == Piece(Denotes(v), p + |ValueText(v)|)
  {
    match v
    case Quoted(_, _) =>
      QuotedRead(s, p, v);
    case Unquoted(word) =>
      WordEndsAt(s, p, word);
      if word != "" {
        AtHead(s, p, word);
      }
      hide At, QuotedText, WordEnd;
  }

  /** A value, the spaces before it skipped. */
  lemma ValueRead(s: string, p: nat, gap: string, v: Value)
    requires At(s, p, gap + ValueText(v)) && AllSpace(gap) && ValueOk(v)
    requires ValueFits(s, p + |gap + ValueText(v)|, v)
    ensures ValueAt(s, p) == Piece(Denotes(v), p + |gap + ValueText(v)|)
    ensures SkipSpaces(s, p) == p + |gap|
  {
    hide *;
    AtSplit(s, p, gap, ValueText(v));
    SpacesSkipped(s, p, gap);
    ValueHere(s, p + |gap|, v);
    SkipTwice(s, p);
  }

  // ─── Reading keys ───

  lemma PlainRead(s: string, p: nat, gap: string, value: Value)
    requires At(s, p, ":" + (gap + ValueText(value))) && AllSpace(gap) && ValueOk(value)
    requires ValueFits(s, p + |":" + (gap + ValueText(value))|, value)
    ensures p < |s| && s[p] == ':'
    ensures ValueAt(s, SkipSpaces(s, p + 1)) == Piece(Denotes(value), p + |":" + (gap + ValueText(value))|)
  {
    AtSplit(s, p, ":", gap + ValueText(value));
    AtHead(s, p, ":");
    hide At, ValueText, ValueOk, ValueFits, Denotes, AllSpace, ValueAt, SkipSpaces;
    ValueRead(s, p + 1, gap, value);
    SkipTwice(s, p + 1);
  }

  /** The value after an operator: spaces, a colon, spaces and the value. */
  lemma ColonValueRead(s: string, p: nat, before: string, gap: string, value: Value)
    requires At(s, p, before + (":" + (gap + ValueText(value))))
    requires AllSpace(before) && AllSpace(gap) && ValueOk(value)
    requires ValueFits(s, p + |before + (":" + (gap + ValueText(value)))|, value)
    ensures OpValueAt(s, p) == Piece(Denotes(value), p + |before + (":" + (gap + ValueText(value)))|)
  {
    hide At, AllSpace, ValueText, ValueOk, ValueFits, ValueAt, Denotes;
    AtSplit(s, p, before, ":" + (gap + ValueText(value)));
    SpacesSkipped(s, p, before);
    PlainRead(s, p + |before|, gap, value);
  }

  /** Or no colon. */
  lemma BareValueRead(s: string, p: nat, before: string, value: Value)
    requires At(s, p, before + ValueText(value)) && AllSpace(before) && ValueOk(value)
    requires var q := p + |before + ValueText(value)|;
      ValueFits(s, q, value) && (value == Unquoted("") && q < |s| ==> s[q] != ':')
    ensures OpValueAt(s, p) == Piece(Denotes(value), p + |before + ValueText(value)|)
  {
    var b := p + |before|;
    NoColon(s, p, before, value);
    hide At, AllSpace, ValueText, ValueOk, ValueFits, ValueAt, Denotes;
    ValueRead(s, p, before, value);
    SkipTwice(s, p);
  }

  lemma NoColon(s: string, p: nat, before: string, value: Value)
    requires At(s, p, before + ValueText(value)) && ValueOk(value)
    requires var q := p + |before + ValueText(value)|; value == Unquoted("") && q < |s| ==> s[q] != ':'
    ensures var b := p + |before|; b < |s| ==> s[b] != ':'
  {
    AtSplit(s, p, before, ValueText(value));
    if ValueText(value) != "" {
      AtHead(s, p + |before|, ValueText(value));
    }
  }

  lemma OpValueRead(s: string, p: nat, before: string, colon: Option<string>, value: Value)
    requires OpValueOk(before, colon, value) && At(s, p, OpValueText(before, colon, value))
    requires OpValueFits(s, p + |OpValueText(before, colon, value)|, colon, value)
    ensures OpValueAt(s, p) == Piece(Denotes(value), p + |OpValueText(before, colon, value)|)
    ensures WordStops(s, p)
  {
    NameStops(s, p, before, colon, value);
    hide *;
    if colon.Some? {
      WithColon(s, p, before, colon.value, value);
    } else {
      WithoutColon(s, p, before, value);
    }
  }

  lemma WithColon(s: string, p: nat, before: string, gap: string, value: Value)
    requires OpValueOk(before, Some(gap), value) && At(s, p, OpValueText(before, Some(gap), value))
    requires OpValueFits(s, p + |OpValueText(before, Some(gap), value)|, Some(gap), value)
    ensures OpValueAt(s, p) == Piece(Denotes(value), p + |OpValueText(before, Some(gap), value)|)
  {
    hide At, AllSpace, ValueText, ValueOk, ValueFits, OpValueText, OpValueAt, Denotes;
    OpValueForms(before, Some(gap), value);
    ColonValueRead(s, p, before, gap, value);
  }

  lemma WithoutColon(s: string, p: nat, before: string, value: Value)
    requires OpValueOk(before, None, value) && At(s, p, OpValueText(before, None, value))
    requires OpValueFits(s, p + |OpValueText(before, None, value)|, None, value)
    ensures OpValueAt(s, p) == Piece(Denotes(value), p + |OpValueText(before, None, value)|)
  {
    hide At, AllSpace, ValueText, ValueOk, ValueFits, OpValueText, OpValueAt, Denotes;
    OpValueForms(before, None, value);
    BareValueRead(s, p, before, value);
  }

  lemma OpValueForms(before: string, colon: Option<string>, value: Value)
    ensures OpValueText(before, colon, value) ==
      if colon.Some? then before + (":" + (colon.value + ValueText(value))) else before + ValueText(value)
  {
    hide ValueText;
    if colon.Some? {
      assert ColonText(colon) + ValueText(value) == ":" + (colon.value + ValueText(value));
    }
  }

  /** After the name of an operator no word goes on. */
  lemma NameStops(s: string, p: nat, before: string, colon: Option<string>, value: Value)
    requires OpValueOk(before, colon, value) && At(s, p, OpValueText(before, colon, value))
    requires OpValueFits(s, p + |OpValueText(before, colon, value)|, colon, value)
    ensures WordStops(s, p)
  {
    var more := OpValueText(before, colon, value);
    if more != "" {
      AtHead(s, p, more);
    }
  }

  lemma ColonRead(s: string, p: nat, key: string, gap: string, value: Value)
    requires At(s, p, ":" + (gap + ValueText(value))) && AllSpace(gap) && ValueOk(value)
    requires ValueFits(s, p + |":" + (gap + ValueText(value))|, value)
    ensures AtKey(s, p)
    ensures KeyValAt(s, p, key)
         == Lexeme(KeyVal(key, Default, Denotes(value)), p + |":" + (gap + ValueText(value))|)
  {
    hide At, AllSpace, ValueText, ValueOk, ValueFits, Denotes, ValueAt, OpValueAt, WordEnd, OpOf, SkipSpaces;
    PlainRead(s, p, gap, value);
  }

  lemma TailRead(s: string, p: nat, key: string, tail: Tail)
    requires !tail.NoValue? && TailOk(tail)
    requires At(s, p, TailText(tail)) && TailFits(s, p + |TailText(tail)|, tail)
    ensures AtKey(s, p)
    ensures KeyValAt(s, p, key) == Lexeme(KeyVal(key, TailOp(tail), TailValue(tail)), p + |TailText(tail)|)
  {
    hide At, KeyValAt, AllSpace, ValueText, ValueOk, ValueFits, OpValueText, OpValueOk, OpValueFits, Names, Denotes;
    match tail
    case Plain(gap, value) => ColonRead(s, p, key, gap, value);
    case WithOp(name, op, before, colon, value) => OpRead(s, p, key, name, op, before, colon, value);
  }

  lemma NameRead(s: string, p: nat, key: string, name: string, op: FilterOp, more: string)
    requires At(s, p, "." + (name + more)) && Names(name, op) && WordStops(s, p + 1 + |name|)
    ensures AtKey(s, p) && At(s, p + 1 + |name|, more)
    ensures var v := OpValueAt(s, p + 1 + |name|); KeyValAt(s, p, key) == Lexeme(KeyVal(key, op, v.text), v.end)
  {
    hide At, IsWord, Names, OpOf, OpValueAt, WordEnd, WordStops;
    AtSplit(s, p, ".", name + more);
    AtHead(s, p, ".");
    AtSplit(s, p + 1, name, more);
    OpIsNamed(name, op);
    WordEndsAt(s, p + 1, name);
  }

  lemma OpRead(s: string, p: nat, key: string, name: string, op: FilterOp,
               before: string, colon: Option<string>, value: Value)
    requires var text := "." + (name + OpValueText(before, colon, value));
      At(s, p, text) && OpValueFits(s, p + |text|, colon, value)
    requires Names(name, op) && OpValueOk(before, colon, value)
    ensures AtKey(s, p)
    ensures KeyValAt(s, p, key)
         == Lexeme(KeyVal(key, op, Denotes(value)), p + |"." + (name + OpValueText(before, colon, value))|)
  {
    hide *;
    var more := OpValueText(before, colon, value);
    AtSplit(s, p, ".", name + more);
    AtSplit(s, p + 1, name, more);
    OpValueRead(s, p + 1 + |name|, before, colon, value);
    NameRead(s, p, key, name, op, more);
  }

  function Extend(key: string, parts: seq<string>): string
    decreases |parts|
  {
    if parts == [] then key else Extend(key + "." + parts[0], parts[1..])
  }

  lemma {:induction false} ExtendIsDotted(key: string, parts: seq<string>)
    ensures Extend(key, parts) == Dotted([key] + parts)
    decreases |parts|
  {
    if parts == [] {
    } else {
      var longer := key + "." + parts[0];
      ExtendIsDotted(longer, parts[1..]);
      assert ([key] + parts)[1..] == parts;
      assert ([longer] + parts[1..])[1..] == parts[1..];
      if |parts| > 1 {
        assert Dotted([key] + parts) == key + "." + (parts[0] + "." + Dotted(parts[1..]));
      }
    }
  }

  lemma PartsStart(parts: seq<string>, tail: Tail)
    requires parts != [] || !tail.NoValue?
    ensures PartsText(parts, tail) != ""
    ensures PartsText(parts, tail)[0] == '.' || PartsText(parts, tail)[0] == ':'
  {
  }

  /** One part more; what follows it begins with a dot or a colon, or is nothing. */
  lemma PartRead(s: string, p: nat, key: string, part: string, more: string)
    requires At(s, p, "." + (part + more)) && LegalPart(part) && WordStops(s, p + 1 + |part|)
    ensures At(s, p + 1 + |part|, more) && AtKey(s, p)
    ensures KeyValAt(s, p, key) ==
      if AtKey(s, p + 1 + |part|) then KeyValAt(s, p + 1 + |part|, key + "." + part)
      else Lexeme(KeyVal(key + "." + part, Default, ""), p + 1 + |part|)
  {
    hide At, OpValueAt;
    AtSplit(s, p, ".", part + more);
    AtHead(s, p, ".");
    AtSplit(s, p + 1, part, more);
    PartIsNoOp(part);
    WordEndsAt(s, p + 1, part);
  }

  lemma {:induction false} PartsRead(s: string, p: nat, key: string, parts: seq<string>, tail: Tail)
    requires parts != [] || !tail.NoValue?
    requires (forall i :: 0 <= i < |parts| ==> LegalPart(parts[i])) && TailOk(tail)
    requires At(s, p, PartsText(parts, tail)) && TailFits(s, p + |PartsText(parts, tail)|, tail)
    ensures AtKey(s, p)
    ensures KeyValAt(s, p, key) ==
      Lexeme(KeyVal(Extend(key, parts), TailOp(tail), TailValue(tail)), p + |PartsText(parts, tail)|)
    decreases |parts|
  {
    hide At, TailText, KeyValAt, LegalPart;
    if parts == [] {
      TailRead(s, p, key, tail);
    } else {
      var part, more := parts[0], PartsText(parts[1..], tail);
      assert PartsText(parts, tail) == "." + (part + more);
      AtSplit(s, p, ".", part + more);
      AtSplit(s, p + 1, part, more);
      if more != "" {
        AtHead(s, p + 1 + |part|, more);
      }
      if parts[1..] == [] && tail.NoValue? {
        assert more == "" by { NothingFollows(tail); }
        PartRead(s, p, key, part, more);
        assert Extend(key + "." + part, parts[1..]) == key + "." + part;
      } else {
        PartsStart(parts[1..], tail);
        PartRead(s, p, key, part, more);
        PartsRead(s, p + 1 + |part|, key + "." + part, parts[1..], tail);
      }
    }
  }

  lemma NothingFollows(tail: Tail)
    requires tail.NoValue?
    ensures PartsText([], tail) == ""
  {
  }

  // ─── Every spelling is read as its token ───

  lemma WordMet(s: string, p: nat, w: string)
    requires w != "" && IsWord(w) && StartsWord(w[0]) && At(s, p, w) && WordStops(s, p + |w|)
    ensures p < |s| && IsWordChar(s[p])
    ensures Next(s, p) == WordAt(s, p) && WordEnd(s, p) == p + |w| && s[p..p + |w|] == w
  {
    AtHead(s, p, w);
    WordEndsAt(s, p, w);
    hide At, WordEnd, QuotedText, WordAt;
  }

  lemma KeywordStarts(w: string)
    requires IsKeyword(w)
    ensures w != "" && StartsWord(w[0])
  {
    assert Lower(w)[0] == LowerChar(w[0]);
  }

  lemma FirstIsNoKeyword(s: string, p: nat, w: string)
    requires LegalFirst(w) && p < |s| && IsWordChar(s[p]) && WordEnd(s, p) == p + |w| && s[p..p + |w|] == w
    ensures AtKey(s, p + |w|) ==> WordAt(s, p) == KeyValAt(s, p + |w|, w)
    ensures !AtKey(s, p + |w|) ==> WordAt(s, p) == Lexeme(BareWord(w), p + |w|)
  {
    hide KeyValAt, WordEnd, Lower;
  }

  /** The first part of a key, and what follows it. */
  lemma FirstRead(s: string, p: nat, first: string, more: string)
    requires LegalFirst(first) && At(s, p, first + more)
    requires more != "" && (more[0] == '.' || more[0] == ':')
    ensures AtKey(s, p + |first|) && At(s, p + |first|, more)
    ensures Next(s, p) == KeyValAt(s, p + |first|, first)
  {
    AtSplit(s, p, first, more);
    AtHead(s, p + |first|, more);
    hide At, IsWord;
    WordMet(s, p, first);
    FirstIsNoKeyword(s, p, first);
  }

  lemma KeyedRead(s: string, p: nat, first: string, parts: seq<string>, tail: Tail)
    requires LegalFirst(first) && (forall i :: 0 <= i < |parts| ==> LegalPart(parts[i])) && TailOk(tail)
    requires parts != [] || !tail.NoValue?
    requires At(s, p, first + PartsText(parts, tail)) && TailFits(s, p + |first + PartsText(parts, tail)|, tail)
    ensures Next(s, p)
         == Lexeme(KeyVal(Dotted([first] + parts), TailOp(tail), TailValue(tail)), p + |first + PartsText(parts, tail)|)
  {
    hide *;
    PartsStart(parts, tail);
    FirstRead(s, p, first, PartsText(parts, tail));
    PartsRead(s, p + |first|, first, parts, tail);
    ExtendIsDotted(first, parts);
  }

  lemma KeywordRead(s: string, p: nat, sp: Spelled)
    requires sp.Keyword? && Stands(s, p, sp)
    ensures Next(s, p) == Lexeme(TokenOf(sp), p + |SpelledText(sp)|)
  {
    KeywordStarts(sp.word);
    WordMet(s, p, sp.word);
    hide At, WordEnd, Next, Lower, KeyValAt;
  }

  lemma SymbolRead(s: string, p: nat, sp: Spelled)
    requires (sp.Symbol? || sp.Minus? || sp.Dash?) && Stands(s, p, sp)
    ensures Next(s, p) == Lexeme(TokenOf(sp), p + |SpelledText(sp)|)
  {
    AtHead(s, p, SpelledText(sp));
    hide At, WordAt, QuotedText, IsAlnum;
  }

  lemma WordRead(s: string, p: nat, sp: Spelled)
    requires (sp.PlainWord? || sp.InQuotes?) && Stands(s, p, sp)
    ensures Next(s, p) == Lexeme(TokenOf(sp), p + |SpelledText(sp)|)
  {
    hide At, WordAt, QuotedText, ValueOk, ValueFits, ValueText, Denotes, Lower;
    if sp.InQuotes? {
      QuotedRead(s, p, sp.value);
    } else {
      WordMet(s, p, sp.word);
      FirstIsNoKeyword(s, p, sp.word);
    }
  }

  /** A spelling that stands in a text is read as its token, to its end. */
  lemma SpellingRead(s: string, p: nat, sp: Spelled)
    requires Stands(s, p, sp)
    ensures Next(s, p) == Lexeme(TokenOf(sp), p + |SpelledText(sp)|)
  {
    hide At, Next, ValueOk, ValueFits, ValueText, Denotes, TailOk, TailFits, PartsText, LegalFirst, LegalPart, IsKeyword;
    match sp
    case Keyword(_) => KeywordRead(s, p, sp);
    case Keyed(first, parts, tail) => KeyedRead(s, p, first, parts, tail);
    case PlainWord(_) => WordRead(s, p, sp);
    case InQuotes(_) => WordRead(s, p, sp);
    case _ => SymbolRead(s, p, sp);
  }

  lemma GapSkipped(s: string, p: nat, gap: string)
    requires At(s, p, gap) && AllSpace(gap)
    ensures Tokenize(s, p) == Tokenize(s, p + |gap|)
  {
    SpacesSkipped(s, p, gap);
    assert Next(s, p) == Next(s, p + |gap|);
  }

  /** A text spelled as these items is read as their tokens. */
  lemma {:induction false} SpelledIsRead(s: string, p: nat, items: seq<Item>)
    requires SpelledAs(s, p, items)
    ensures Tokenize(s, p) == TokensOf(items)
    decreases |items|
  {
    hide Stands, Next, SpelledText, TokenOf;
    if items == [] {
      AtSlice(s, p, |s|);
      GapSkipped(s, p, s[p..]);
      NothingLeft(s);
    } else {
      var q := p + |items[0].gap|;
      GapSkipped(s, p, items[0].gap);
      SpellingRead(s, q, items[0].spelled);
      SpelledIsRead(s, q + |SpelledText(items[0].spelled)|, items[1..]);
    }
  }

  lemma NothingLeft(s: string)
    ensures Tokenize(s, |s|) == []
  {
  }

  // ─── Every text is spelled in some way ───

  lemma {:induction false} MarksFound(s: string, p: nat) returns (ms: seq<Mark>, closing: Closing)
    requires p <= |s|
    ensures MarksOk(ms) && At(s, p, MarksText(ms) + ClosingText(closing))
    ensures closing == Closed || p + |MarksText(ms) + ClosingText(closing)| == |s|
    decreases |s| - p
  {
    ms := [];
    if p == |s| {
      closing := Cut;
    } else if s[p] == '"' {
      closing := Closed;
    } else if s[p] == '\\' && p + 1 == |s| {
      closing := CutAfterBackslash;
    } else {
      var m := if s[p] == '\\' then Mark(s[p + 1], true) else Mark(s[p], false);
      MarkFound(s, p, m);
      var more;
      more, closing := MarksFound(s, p + |MarkText(m)|);
      ms := [m] + more;
      hide At, MarkText, MarksText, ClosingText;
      MarksSplit(ms, ClosingText(closing));
      AtSplit(s, p, MarkText(m), MarksText(more) + ClosingText(closing));
    }
  }

  lemma MarkFound(s: string, p: nat, m: Mark)
    requires p < |s| && s[p] != '"'
    requires s[p] == '\\' ==> p + 1 < |s|
    requires m == if s[p] == '\\' then Mark(s[p + 1], true) else Mark(s[p], false)
    ensures At(s, p, MarkText(m)) && MarksOk([m])
  {
    var q := p + |MarkText(m)|;
    assert s[p..q] == MarkText(m);
  }

  lemma QuotedFound(s: string, p: nat) returns (v: Value)
    requires p < |s| && s[p] == '"'
    ensures v.Quoted? && ValueOk(v) && At(s, p, ValueText(v)) && ValueFits(s, p + |ValueText(v)|, v)
  {
    var ms, closing := MarksFound(s, p + 1);
    v := Quoted(ms, closing);
    AtSlice(s, p, p + 1);
    assert s[p..p + 1] == "\"";
    AtSplit(s, p, "\"", MarksText(ms) + ClosingText(closing));
  }

  lemma WordFound(s: string, p: nat)
    requires p <= |s|
    ensures IsWord(s[p..WordEnd(s, p)]) && WordStops(s, WordEnd(s, p))
    ensures At(s, p, s[p..WordEnd(s, p)]) && p + |s[p..WordEnd(s, p)]| == WordEnd(s, p)
  {
  }

  lemma ValueHereFound(s: string, p: nat) returns (v: Value)
    requires p <= |s| && (p < |s| ==> !IsSpace(s[p]))
    ensures ValueOk(v) && At(s, p, ValueText(v)) && ValueFits(s, p + |ValueText(v)|, v)
  {
    if p < |s| && s[p] == '"' {
      v := QuotedFound(s, p);
    } else {
      WordFound(s, p);
      v := Unquoted(s[p..WordEnd(s, p)]);
    }
  }

  lemma ValueFound(s: string, p: nat) returns (gap: string, v: Value)
    requires p <= |s|
    ensures AllSpace(gap) && At(s, p, gap) && p + |gap| == SkipSpaces(s, p)
    ensures ValueOk(v) && At(s, p + |gap|, ValueText(v)) && ValueFits(s, p + |gap| + |ValueText(v)|, v)
  {
    hide *;
    SkippedAreSpaces(s, p);
    AtSlice(s, p, SkipSpaces(s, p));
    gap := s[p..SkipSpaces(s, p)];
    v := ValueHereFound(s, SkipSpaces(s, p));
  }

  lemma OneAt(s: string, p: nat)
    requires p < |s|
    ensures At(s, p, [s[p]])
  {
    AtSlice(s, p, p + 1);
    assert s[p..p + 1] == [s[p]];
  }

  /** A colon, and the value after it. */
  lemma PlainFound(s: string, p: nat) returns (gap: string, v: Value)
    requires p < |s| && s[p] == ':'
    ensures AllSpace(gap) && ValueOk(v) && At(s, p, ":" + (gap + ValueText(v)))
    ensures ValueFits(s, p + |":" + (gap + ValueText(v))|, v)
  {
    hide *;
    gap, v := ValueFound(s, p + 1);
    OneAt(s, p);
    AtSplit(s, p + 1, gap, ValueText(v));
    AtSplit(s, p, ":", gap + ValueText(v));
  }

  /** After the name of an operator, which ends where no word goes on. */
  lemma OpValueFound(s: string, p: nat) returns (before: string, colon: Option<string>, v: Value)
    requires p <= |s| && WordStops(s, p)
    ensures OpValueOk(before, colon, v) && At(s, p, OpValueText(before, colon, v))
    ensures OpValueFits(s, p + |OpValueText(before, colon, v)|, colon, v)
  {
    hide At, ValueText, ValueOk, ValueFits, AllSpace, OpValueText, OpValueOk, OpValueFits, SkipSpaces, WordStops;
    before, v := ValueFound(s, p);
    colon := None;
    var b := p + |before|;
    if b < |s| && s[b] == ':' {
      var gap;
      gap, v := PlainFound(s, b);
      colon := Some(gap);
      AtSplit(s, p, before, ":" + (gap + ValueText(v)));
      ColonValueStands(s, p, before, gap, v);
    } else {
      AtSplit(s, p, before, ValueText(v));
      BareValueStands(s, p, before, v);
    }
  }

  lemma ColonValueStands(s: string, p: nat, before: string, gap: string, v: Value)
    requires AllSpace(before) && AllSpace(gap) && ValueOk(v) && At(s, p, before + (":" + (gap + ValueText(v))))
    requires ValueFits(s, p + |before| + |":" + (gap + ValueText(v))|, v)
    ensures OpValueOk(before, Some(gap), v) && At(s, p, OpValueText(before, Some(gap), v))
    ensures OpValueFits(s, p + |OpValueText(before, Some(gap), v)|, Some(gap), v)
  {
    hide At, ValueText, ValueOk, ValueFits, AllSpace, OpValueText;
    OpValueForms(before, Some(gap), v);
  }

  lemma BareValueStands(s: string, p: nat, before: string, v: Value)
    requires WordStops(s, p) && AllSpace(before) && ValueOk(v) && At(s, p, before + ValueText(v))
    requires ValueFits(s, p + |before| + |ValueText(v)|, v) && (p + |before| < |s| ==> s[p + |before|] != ':')
    ensures OpValueOk(before, None, v) && At(s, p, OpValueText(before, None, v))
    ensures OpValueFits(s, p + |OpValueText(before, None, v)|, None, v)
  {
    NoWordThere(s, p, before, v);
    OpValueForms(before, None, v);
    assert v == Unquoted("") ==> ValueText(v) == "";
    hide At, ValueText, ValueOk, ValueFits, AllSpace, OpValueText, WordStops;
  }

  lemma NoWordThere(s: string, p: nat, before: string, v: Value)
    requires WordStops(s, p) && At(s, p, before + ValueText(v)) && ValueOk(v)
    ensures before == "" && v.Unquoted? ==> v.word == ""
  {
    if before + ValueText(v) != "" {
      AtHead(s, p, before + ValueText(v));
    }
  }

  /** These parts of a key and what follows them stand at position `p`. */
  predicate PartsStand(s: string, p: nat, parts: seq<string>, tail: Tail) {
    && (forall i :: 0 <= i < |parts| ==> LegalPart(parts[i])) && TailOk(tail)
    && At(s, p, PartsText(parts, tail)) && TailFits(s, p + |PartsText(parts, tail)|, tail)
  }

  lemma PlainTail(s: string, p: nat) returns (tail: Tail)
    requires p < |s| && s[p] == ':'
    ensures tail.Plain? && PartsStand(s, p, [], tail)
  {
    var gap, v := PlainFound(s, p);
    tail := Plain(gap, v);
    hide At, ValueText, ValueFits, ValueOk, AllSpace;
  }

  lemma NamedStands(s: string, p: nat, name: string, op: FilterOp, before: string, colon: Option<string>, v: Value)
    requires Names(name, op) && OpValueOk(before, colon, v)
    requires At(s, p, "." + (name + OpValueText(before, colon, v)))
    requires OpValueFits(s, p + |"." + (name + OpValueText(before, colon, v))|, colon, v)
    ensures PartsStand(s, p, [], WithOp(name, op, before, colon, v))
  {
    hide At, OpValueText, OpValueOk, OpValueFits, Names, PartsStand;
    TailStands(s, p, WithOp(name, op, before, colon, v));
  }

  lemma NamedTail(s: string, p: nat, name: string, op: FilterOp) returns (tail: Tail)
    requires At(s, p, ".") && At(s, p + 1, name) && Names(name, op) && WordStops(s, p + 1 + |name|)
    requires p + 1 + |name| <= |s|
    ensures tail.WithOp? && PartsStand(s, p, [], tail)
  {
    hide *;
    var before, colon, v := OpValueFound(s, p + 1 + |name|);
    tail := WithOp(name, op, before, colon, v);
    NameAdded(s, p, name, OpValueText(before, colon, v));
    NamedStands(s, p, name, op, before, colon, v);
  }

  lemma TailStands(s: string, p: nat, tail: Tail)
    requires TailOk(tail) && At(s, p, TailText(tail)) && TailFits(s, p + |TailText(tail)|, tail)
    ensures PartsStand(s, p, [], tail)
  {
    hide At, TailText, TailOk, TailFits, LegalPart;
  }

  lemma NameAdded(s: string, p: nat, name: string, more: string)
    requires At(s, p, ".") && At(s, p + 1, name) && At(s, p + 1 + |name|, more)
    ensures At(s, p, "." + (name + more)) && |"." + (name + more)| == 1 + |name| + |more|
  {
    hide *;
    AtSplit(s, p + 1, name, more);
    AtSplit(s, p, ".", name + more);
  }

  lemma PartAdded(s: string, p: nat, part: string, parts: seq<string>, tail: Tail)
    requires At(s, p, ".") && At(s, p + 1, part) && LegalPart(part) && PartsStand(s, p + 1 + |part|, parts, tail)
    ensures PartsStand(s, p, [part] + parts, tail)
  {
    hide At, TailText, TailOk, TailFits, LegalPart;
    assert ([part] + parts)[1..] == parts;
    NameAdded(s, p, part, PartsText(parts, tail));
  }

  /** The parts of a key, and its value. */
  lemma {:induction false} PartsFound(s: string, p: nat) returns (parts: seq<string>, tail: Tail)
    requires AtKey(s, p)
    ensures (parts != [] || !tail.NoValue?) && PartsStand(s, p, parts, tail)
    decreases |s| - p
  {
    hide At, PartsStand, IsWord, Names, LegalPart, OpOf;
    OneAt(s, p);
    if s[p] == ':' {
      parts := [];
      tail := PlainTail(s, p);
    } else {
      var q := WordEnd(s, p + 1);
      var part := s[p + 1..q];
      WordFound(s, p + 1);
      match OpOf(part)
      case Some(op) =>
        OpIsNamed(part, op);
        parts := [];
        tail := NamedTail(s, p, part, op);
      case None =>
        PartLegal(part);
        if AtKey(s, q) {
          parts, tail := PartsFound(s, q);
        } else {
          parts, tail := [], NoValue;
          NothingStands(s, q);
        }
        PartAdded(s, p, part, parts, tail);
        parts := [part] + parts;
    }
  }

  lemma PartLegal(part: string)
    requires IsWord(part) && OpOf(part) == None
    ensures LegalPart(part)
  {
    PartIsNoOp(part);
  }

  lemma NothingStands(s: string, p: nat)
    requires p <= |s| && WordStops(s, p) && !AtKey(s, p)
    ensures PartsStand(s, p, [], NoValue)
  {
  }

  lemma KeyedStands(s: string, p: nat, first: string, parts: seq<string>, tail: Tail)
    requires LegalFirst(first) && (parts != [] || !tail.NoValue?)
    requires At(s, p, first + PartsText(parts, tail)) && PartsStand(s, p + |first|, parts, tail)
    ensures Stands(s, p, Keyed(first, parts, tail))
  {
    hide At, TailOk, TailFits, LegalPart, PartsText, LegalFirst;
  }

  lemma KeySpelled(s: string, p: nat, first: string) returns (sp: Spelled)
    requires LegalFirst(first) && At(s, p, first) && AtKey(s, p + |first|)
    ensures Stands(s, p, sp)
  {
    hide At, TailOk, TailFits, LegalPart, PartsText, LegalFirst, Stands;
    var parts, tail := PartsFound(s, p + |first|);
    AtSplit(s, p, first, PartsText(parts, tail));
    KeyedStands(s, p, first, parts, tail);
    sp := Keyed(first, parts, tail);
  }

  lemma WordSpelled(s: string, p: nat) returns (sp: Spelled)
    requires p < |s| && !IsSpace(s[p]) && StartsWord(s[p])
    ensures Stands(s, p, sp)
  {
    var q := WordEnd(s, p);
    var w := s[p..q];
    WordFound(s, p);
    if IsKeyword(w) {
      sp := Keyword(w);
    } else if AtKey(s, q) {
      sp := KeySpelled(s, p, w);
    } else {
      sp := PlainWord(w);
    }
  }

  /** Something that is no space begins a spelling. */
  lemma SpellingFound(s: string, p: nat) returns (sp: Spelled)
    requires p < |s| && !IsSpace(s[p])
    ensures Stands(s, p, sp)
  {
    OneAt(s, p);
    if s[p] == '-' {
      sp := if p + 1 < |s| && !IsSpace(s[p + 1]) then Minus else Dash;
    } else if s[p] == '"' {
      var v := QuotedFound(s, p);
      sp := InQuotes(v);
    } else if StartsWord(s[p]) {
      sp := WordSpelled(s, p);
    } else {
      sp := Symbol(s[p]);
    }
  }

  lemma ItemAdded(s: string, p: nat, gap: string, sp: Spelled, more: seq<Item>)
    requires At(s, p, gap) && AllSpace(gap) && Stands(s, p + |gap|, sp)
    requires SpelledAs(s, p + |gap| + |SpelledText(sp)|, more)
    ensures SpelledAs(s, p, [Item(gap, sp)] + more)
  {
    hide AllSpace, Stands, SpelledText;
    assert ([Item(gap, sp)] + more)[1..] == more;
  }

  lemma FirstItem(s: string, p: nat) returns (gap: string, sp: Spelled)
    requires p <= |s| && SkipSpaces(s, p) < |s|
    ensures At(s, p, gap) && AllSpace(gap) && Stands(s, p + |gap|, sp)
    ensures p < p + |gap| + |SpelledText(sp)| <= |s|
  {
    hide *;
    var b := SkipSpaces(s, p);
    SkippedAreSpaces(s, p);
    AtSlice(s, p, b);
    gap := s[p..b];
    sp := SpellingFound(s, b);
    SpellingEnds(s, b, sp);
  }

  lemma SpellingEnds(s: string, p: nat, sp: Spelled)
    requires p <= |s| && Stands(s, p, sp)
    ensures p < p + |SpelledText(sp)| <= |s|
  {
    SpellingRead(s, p, sp);
    hide Stands, SpelledText, Next;
  }

  lemma OnlySpaces(s: string, p: nat)
    requires p <= |s| && SkipSpaces(s, p) == |s|
    ensures SpelledAs(s, p, [])
  {
    SkippedAreSpaces(s, p);
    assert s[p..] == s[p..|s|];
  }

  lemma {:induction false} ItemsFound(s: string, p: nat) returns (items: seq<Item>)
    requires p <= |s|
    ensures SpelledAs(s, p, items)
    decreases |s| - p
  {
    hide *;
    if SkipSpaces(s, p) == |s| {
      items := [];
      OnlySpaces(s, p);
    } else {
      var gap, sp := FirstItem(s, p);
      items := ItemsFound(s, p + |gap| + |SpelledText(sp)|);
      ItemAdded(s, p, gap, sp, items);
      items := [Item(gap, sp)] + items;
    }
  }

  /** The tokenizer reads a text as some tokens exactly when the grammar spells them that way. */
  lemma TokensAreSpelled(s: string, ts: seq<Token>)
    ensures Tokenize(s, 0) == ts <==> exists items :: SpelledAs(s, 0, items) && TokensOf(items) == ts
  {
    var items := ItemsFound(s, 0);
    forall other | SpelledAs(s, 0, other) ensures Tokenize(s, 0) == TokensOf(other) {
      SpelledIsRead(s, 0, other);
    }
  }

  // ─── Single tokens ───

  /** Keys the tokenizer can produce: no later part is an operator name. */
  predicate LegalKey(key: string) {
    var parts := Split(key);
    LegalFirst(parts[0]) && forall i :: 1 <= i < |parts| ==> LegalPart(parts[i])
  }

  lemma {:induction false} PartsTextIsDotted(first: string, parts: seq<string>, tail: Tail)
    ensures first + PartsText(parts, tail) == Dotted([first] + parts) + TailText(tail)
    decreases |parts|
  {
    if parts != [] {
      assert ([first] + parts)[1..] == parts;
      assert parts == [parts[0]] + parts[1..];
      PartsTextIsDotted(parts[0], parts[1..], tail);
      hide Dotted, PartsText, TailText;
      var d := Dotted(parts);
      Regroup(first, ".", d, TailText(tail));
    }
  }

  function KeyedBy(key: string, tail: Tail): Spelled {
    var parts := Split(key); Keyed(parts[0], parts[1..], tail)
  }

  /** A legal key with what follows it is a spelling. */
  lemma KeySpelling(key: string, tail: Tail)
    requires LegalKey(key) && TailOk(tail) && !tail.NoValue?
    ensures var sp := KeyedBy(key, tail);
      && SpelledOk(sp) && SpelledText(sp) == key + TailText(tail)
      && TokenOf(sp) == KeyVal(key, TailOp(tail), TailValue(tail))
  {
    hide TailText, TailOk, PartsText, Dotted, Split, LegalPart, LegalFirst, TailOp, TailValue;
    var parts := Split(key);
    DottedSplit(key);
    assert parts == [parts[0]] + parts[1..];
    PartsTextIsDotted(parts[0], parts[1..], tail);
  }

  lemma OneToken(s: string, sp: Spelled)
    requires SpelledOk(sp) && SpelledText(sp) == s && Fits(s, |s|, sp)
    ensures Tokenize(s, 0) == [TokenOf(sp)]
  {
    hide SpelledOk, SpelledText, Fits, TokenOf;
    AtSlice(s, 0, |s|);
    assert s[0..|s|] == s;
    SpellingRead(s, 0, sp);
    NothingLeft(s);
  }

  /** `key:word`, without quotes. */
  lemma UnquotedValue(key: string, w: string)
    requires LegalKey(key) && w != "" && IsWord(w)
    ensures Tokenize(key + ":" + w, 0) == [KeyVal(key, Default, w)]
  {
    var tail := Plain("", Unquoted(w));
    hide LegalKey, IsWord;
    KeySpelling(key, tail);
    assert key + TailText(tail) == key + ":" + w;
    OneToken(key + ":" + w, KeyedBy(key, tail));
  }

  lemma UnquotedText(key: string, name: string, op: FilterOp, before: string, colon: Option<string>, w: string)
    requires LegalKey(key) && Names(name, op) && OpValueOk(before, colon, Unquoted(w)) && w != ""
    ensures Tokenize(key + ("." + (name + OpValueText(before, colon, Unquoted(w)))), 0) == [KeyVal(key, op, w)]
  {
    var tail := WithOp(name, op, before, colon, Unquoted(w));
    hide LegalKey, IsWord, Names, OpValueText;
    KeySpelling(key, tail);
    OneToken(key + TailText(tail), KeyedBy(key, tail));
  }

  /** `key.op:word` and `key.op word`, for each of the six operators. */
  lemma UnquotedAfterOp(key: string, name: string, op: FilterOp, w: string)
    requires LegalKey(key) && Names(name, op) && w != "" && IsWord(w)
    ensures Tokenize(key + "." + name + ":" + w, 0) == [KeyVal(key, op, w)]
    ensures Tokenize(key + "." + name + " " + w, 0) == [KeyVal(key, op, w)]
  {
    hide LegalKey, IsWord, Names;
    UnquotedText(key, name, op, "", Some(""), w);
    assert OpValueText("", Some(""), Unquoted(w)) == ":" + w;
    Regroup(key, ".", name, ":" + w);
    ThreeParts(key + "." + name, ":", w);
    UnquotedText(key, name, op, " ", None, w);
    assert OpValueText(" ", None, Unquoted(w)) == " " + w;
    Regroup(key, ".", name, " " + w);
    ThreeParts(key + "." + name, " ", w);
  }

  /** A word without quotes; AND, OR and NOT in any case; a key with neither operator nor value. */
  lemma UnquotedWord(w: string)
    requires IsWord(w) && w != "" && StartsWord(w[0])
    ensures Tokenize(w, 0) ==
      if Lower(w) == "and" then [AndTok] else if Lower(w) == "or" then [OrTok]
      else if Lower(w) == "not" then [NotTok] else [BareWord(w)]
  {
    hide IsWord, Lower;
    OneToken(w, if IsKeyword(w) then Keyword(w) else PlainWord(w));
  }

  /** A minus right before something negates it; before a space, or at the end, it is a word. */
  lemma MinusRead(s: string, p: nat)
    requires p < |s| && s[p] == '-'
    ensures Tokenize(s, p) ==
      [if p + 1 < |s| && !IsSpace(s[p + 1]) then NotTok else BareWord("-")] + Tokenize(s, p + 1)
  {
    OneAt(s, p);
    SpellingRead(s, p, if p + 1 < |s| && !IsSpace(s[p + 1]) then Minus else Dash);
    hide Next;
  }
}
