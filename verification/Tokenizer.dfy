/** The tokenizer of src/query.rs, lines 28-197, over ASCII input. */
module Tokenizing {
  import opened Query
  import opened Text

  predicate IsWordChar(c: char) {
    !IsSpace(c) && c != '(' && c != ')' && c != ':' && c != '"' && c != '.'
  }

  predicate StartsWord(c: char) {
    IsAlnum(c) || c == '_'
  }

  function OpOf(name: string): Option<FilterOp> {
    if name == "contains" then Some(Contains)
    else if name == "icontains" then Some(IContains)
    else if name == "regex" then Some(Regex)
    else if name == "equals" then Some(Equals)
    else if name == "startswith" then Some(Startswith)
    else if name == "endswith" then Some(Endswith)
    else None
  }

  // ─── What each reader makes of the input from a position on ───

  function SkipSpaces(s: string, p: nat): (q: nat)
    requires p <= |s|
    ensures p <= q <= |s| && (q < |s| ==> !IsSpace(s[q]))
    decreases |s| - p
  {
    if p < |s| && IsSpace(s[p]) then SkipSpaces(s, p + 1) else p
  }

  function WordEnd(s: string, p: nat): (q: nat)
    requires p <= |s|
    ensures p <= q <= |s| && (q < |s| ==> !IsWordChar(s[q]))
    ensures forall i :: p <= i < q ==> IsWordChar(s[i])
    decreases |s| - p
  {
    if p < |s| && IsWordChar(s[p]) then WordEnd(s, p + 1) else p
  }

  /** A piece of text and the position after it. */
  datatype Piece = Piece(text: string, end: nat)

  /** The text up to the closing quote; a backslash keeps the next character. */
  function QuotedText(s: string, p: nat): (q: Piece)
    requires p <= |s|
    ensures p <= q.end <= |s|
    decreases |s| - p
  {
    if p == |s| then Piece("", p)
    else if s[p] == '"' then Piece("", p + 1)
    else if s[p] == '\\' then
      if p + 1 == |s| then Piece("", p + 1)
      else var q := QuotedText(s, p + 2); Piece([s[p + 1]] + q.text, q.end)
    else var q := QuotedText(s, p + 1); Piece([s[p]] + q.text, q.end)
  }

  function ValueAt(s: string, p: nat): (q: Piece)
    requires p <= |s|
    ensures p <= q.end <= |s|
  {
    var b := SkipSpaces(s, p);
    if b < |s| && s[b] == '"' then QuotedText(s, b + 1) else Piece(s[b..WordEnd(s, b)], WordEnd(s, b))
  }

  datatype Lexeme = End | Lexeme(token: Token, end: nat)

  predicate AtKey(s: string, p: nat) {
    p < |s| && (s[p] == '.' || s[p] == ':')
  }

  /** A value after an operator: the colon before it may be missing. */
  function OpValueAt(s: string, p: nat): (q: Piece)
    requires p <= |s|
    ensures p <= q.end <= |s|
  {
    var b := SkipSpaces(s, p);
    if b < |s| && s[b] == ':' then ValueAt(s, SkipSpaces(s, b + 1)) else ValueAt(s, b)
  }

  function KeyValAt(s: string, p: nat, key: string): (l: Lexeme)
    requires AtKey(s, p)
    ensures l.Lexeme? && p < l.end <= |s|
    decreases |s| - p
  {
    if s[p] == '.' then
      var q := WordEnd(s, p + 1);
      var part := s[p + 1..q];
      match OpOf(part)
      case Some(op) =>
        var v := OpValueAt(s, q);
        Lexeme(KeyVal(key, op, v.text), v.end)
      case None =>
        if AtKey(s, q) then KeyValAt(s, q, key + "." + part)
        else Lexeme(KeyVal(key + "." + part, Default, ""), q)
    else
      var v := ValueAt(s, SkipSpaces(s, p + 1));
      Lexeme(KeyVal(key, Default, v.text), v.end)
  }

  function WordAt(s: string, p: nat): (l: Lexeme)
    requires p < |s| && IsWordChar(s[p])
    ensures l.Lexeme? && p < l.end <= |s|
  {
    var q := WordEnd(s, p);
    var w := s[p..q];
    if Lower(w) == "and" then Lexeme(AndTok, q)
    else if Lower(w) == "or" then Lexeme(OrTok, q)
    else if Lower(w) == "not" then Lexeme(NotTok, q)
    else if AtKey(s, q) then KeyValAt(s, q, w)
    else Lexeme(BareWord(w), q)
  }

  /** The next token from `p` on, and the position after it. */
  function Next(s: string, p: nat): (l: Lexeme)
    requires p <= |s|
    ensures l.End? <==> SkipSpaces(s, p) == |s|
    ensures l.Lexeme? ==> p < l.end <= |s|
  {
    var b := SkipSpaces(s, p);
    if b == |s| then End
    else if s[b] == '(' then Lexeme(LParen, b + 1)
    else if s[b] == ')' then Lexeme(RParen, b + 1)
    else if s[b] == '-' then
      if b + 1 < |s| && !IsSpace(s[b + 1]) then Lexeme(NotTok, b + 1) else Lexeme(BareWord("-"), b + 1)
    else if s[b] == '"' then var q := QuotedText(s, b + 1); Lexeme(BareWord(q.text), q.end)
    else if StartsWord(s[b]) then WordAt(s, b)
    else Lexeme(BareWord([s[b]]), b + 1)
  }

  function Tokenize(s: string, p: nat): seq<Token>
    requires p <= |s|
    decreases |s| - p
  {
    match Next(s, p)
    case End => []
    case Lexeme(token, end) => [token] + Tokenize(s, end)
  }

  // ─── The cursor ───

  class Tokenizer {
    const input: string
    var pos: nat

    ghost predicate Valid()
      reads this
    {
      pos <= |input|
    }

    constructor (input: string)
      requires IsAscii(input)
      ensures Valid() && this.input == input && pos == 0
    {
      this.input := input;
      pos := 0;
    }

    function Current(): (c: Option<char>)
      reads this
      requires Valid()
      ensures c == None <==> pos == |input|
      ensures c.Some? ==> c.value == input[pos]
    {
      if pos < |input| then Some(input[pos]) else None
    }

    method SkipWhitespace()
      requires Valid()
      modifies this`pos
      ensures Valid() && pos == SkipSpaces(input, old(pos))
    {
      while Current().Some? && IsSpace(Current().value)
        invariant Valid() && SkipSpaces(input, pos) == SkipSpaces(input, old(pos))
        decreases |input| - pos
      {
        pos := pos + 1;
      }
    }

    method ReadWord() returns (word: string)
      requires Valid()
      modifies this`pos
      ensures Valid() && pos == WordEnd(input, old(pos)) && word == input[old(pos)..pos]
    {
      var start := pos;
      while Current().Some? && IsWordChar(Current().value)
        invariant start <= pos <= |input| && WordEnd(input, pos) == WordEnd(input, start)
        decreases |input| - pos
      {
        pos := pos + 1;
      }
      word := input[start..pos];
    }

    method ReadQuoted() returns (result: string)
      requires Valid() && Current() == Some('"')
      modifies this`pos
      ensures Valid() && Piece(result, pos) == QuotedText(input, old(pos) + 1)
    {
      pos := pos + 1;
      result := "";
      ghost var all := QuotedText(input, pos);
      while Current().Some?
        invariant Valid()
        invariant all == Piece(result + QuotedText(input, pos).text, QuotedText(input, pos).end)
        decreases |input| - pos
      {
        var ch := Current().value;
        if ch == '"' {
          pos := pos + 1;
          return;
        }
        if ch == '\\' {
          pos := pos + 1;
          if Current().Some? {
            result := result + [Current().value];
            pos := pos + 1;
          }
        } else {
          result := result + [ch];
          pos := pos + 1;
        }
      }
    }

    method ReadValue() returns (value: string)
      requires Valid()
      modifies this`pos
      ensures Valid() && Piece(value, pos) == ValueAt(input, old(pos))
    {
      SkipWhitespace();
      if Current() == Some('"') {
        value := ReadQuoted();
      } else {
        value := ReadWord();
      }
    }

    /** Lines 109-116. */
    method ReadOpValue() returns (value: string)
      requires Valid()
      modifies this`pos
      ensures Valid() && Piece(value, pos) == OpValueAt(input, old(pos))
    {
      SkipWhitespace();
      if Current() == Some(':') {
        pos := pos + 1;
        SkipWhitespace();
        value := ReadValue();
      } else {
        value := ReadValue();
      }
    }

    method ReadKeyVal(key: string) returns (token: Token)
      requires Valid() && AtKey(input, pos)
      modifies this`pos
      ensures Valid() && Lexeme(token, pos) == KeyValAt(input, old(pos), key)
      decreases |input| - pos
    {
      hide OpOf, ValueAt, OpValueAt, SkipSpaces, WordEnd;
      if Current() == Some('.') {
        pos := pos + 1;
        var suffix := ReadWord();
        var op := OpOf(suffix);
        if op.Some? {
          var value := ReadOpValue();
          token := KeyVal(key, op.value, value);
        } else {
          var fullKey := key + "." + suffix;
          if Current() == Some('.') || Current() == Some(':') {
            token := ReadKeyVal(fullKey);
          } else {
            token := KeyVal(fullKey, Default, "");
          }
        }
      } else {
        pos := pos + 1;
        SkipWhitespace();
        var value := ReadValue();
        token := KeyVal(key, Default, value);
      }
    }

    method NextToken() returns (token: Option<Token>)
      requires Valid()
      modifies this`pos
      ensures Valid()
      ensures match Next(input, old(pos))
        case End => token == None && pos == |input|
        case Lexeme(t, end) => token == Some(t) && pos == end
    {
      SkipWhitespace();
      if pos >= |input| {
        return None;
      }
      var ch := Current().value;
      if ch == '(' {
        pos := pos + 1;
        return Some(LParen);
      }
      if ch == ')' {
        pos := pos + 1;
        return Some(RParen);
      }
      if ch == '-' {
        pos := pos + 1;
        if pos < |input| && !IsSpace(Current().value) {
          return Some(NotTok);
        }
        return Some(BareWord("-"));
      }
      if ch == '"' {
        var text := ReadQuoted();
        return Some(BareWord(text));
      }
      if StartsWord(ch) {
        var word := ReadWord();
        if Lower(word) == "and" {
          return Some(AndTok);
        } else if Lower(word) == "or" {
          return Some(OrTok);
        } else if Lower(word) == "not" {
          return Some(NotTok);
        }
        if Current() == Some(':') || Current() == Some('.') {
          var keyVal := ReadKeyVal(word);
          return Some(keyVal);
        }
        return Some(BareWord(word));
      }
      pos := pos + 1;
      return Some(BareWord([ch]));
    }

    /** Lines 190-196. */
    method TokenizeAll() returns (tokens: seq<Token>)
      requires Valid()
      modifies this`pos
      ensures Valid() && tokens == Tokenize(input, old(pos))
    {
      tokens := [];
      var token := NextToken();
      while token.Some?
        invariant Valid()
        invariant Tokenize(input, old(pos))
               == tokens + if token.Some? then [token.value] + Tokenize(input, pos) else []
        decreases token.Some?, |input| - pos
      {
        tokens := tokens + [token.value];
        ghost var before := pos;
        token := NextToken();
        assert Tokenize(input, before) == if token.Some? then [token.value] + Tokenize(input, pos) else [];
      }
    }
  }
}
