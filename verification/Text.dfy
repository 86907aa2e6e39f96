/** ASCII text: character classes, case, decimal numbers, dotted names. */
module Text {

  datatype Option<+T> = None | Some(value: T)

  lemma Regroup<A>(a: seq<A>, b: seq<A>, c: seq<A>, d: seq<A>)
    ensures a + b + c + d == a + (b + (c + d)) == a + b + (c + d) == a + (b + c + d)
  {
  }

  lemma ThreeParts<A>(a: seq<A>, b: seq<A>, c: seq<A>)
    ensures (a + b) + c == a + (b + c)
  {
  }

  predicate IsAscii(s: string) {
    forall i :: 0 <= i < |s| ==> s[i] < 128 as char
  }

  predicate IsSpace(c: char) {
    c == ' ' || '\t' <= c <= '\r'
  }

  predicate IsDigit(c: char) { '0' <= c <= '9' }

  predicate IsLower(c: char) { 'a' <= c <= 'z' }

  predicate IsUpper(c: char) { 'A' <= c <= 'Z' }

  predicate IsAlnum(c: char) { IsDigit(c) || IsLower(c) || IsUpper(c) }

  function LowerChar(c: char): char {
    if IsUpper(c) then (c as int + 32) as char else c
  }

  function UpperChar(c: char): char {
    if IsLower(c) then (c as int - 32) as char else c
  }

  function Lower(s: string): (r: string)
    ensures |r| == |s| && forall i :: 0 <= i < |s| ==> r[i] == LowerChar(s[i])
  {
    if s == "" then "" else [LowerChar(s[0])] + Lower(s[1..])
  }

  function Upper(s: string): (r: string)
    ensures |r| == |s| && forall i :: 0 <= i < |s| ==> r[i] == UpperChar(s[i])
  {
    if s == "" then "" else [UpperChar(s[0])] + Upper(s[1..])
  }

  /** `str::to_lowercase`: beyond ASCII it may do anything. */
  type Folding = fold: string -> string | forall s :: IsAscii(s) ==> fold(s) == Lower(s) witness Lower

  /** `a.eq_ignore_ascii_case(b)` */
  predicate SameIgnoringCase(a: string, b: string) {
    Lower(a) == Lower(b)
  }

  predicate StartsWith(s: string, prefix: string) { prefix <= s }

  predicate EndsWith(s: string, suffix: string) {
    |suffix| <= |s| && s[|s| - |suffix|..] == suffix
  }

  predicate HasSubstring(s: string, part: string) {
    exists i :: 0 <= i <= |s| && StartsWith(s[i..], part)
  }

  // ─── Decimal numbers ───

  function Digit(d: nat): char
    requires d < 10
  {
    ('0' as int + d) as char
  }

  function Show(n: nat): (s: string)
    ensures s != "" && forall i :: 0 <= i < |s| ==> IsDigit(s[i])
  {
    if n < 10 then [Digit(n)] else Show(n / 10) + [Digit(n % 10)]
  }

  function ShowInt(i: int): string {
    if i < 0 then "-" + Show(-i) else Show(i)
  }

  function ShowBool(b: bool): string {
    if b then "true" else "false"
  }

  /** The number a run of digits denotes, or None at the first other character. */
  function ReadDigits(s: string, acc: nat): Option<nat> {
    if s == "" then Some(acc)
    else if IsDigit(s[0]) then ReadDigits(s[1..], 10 * acc + (s[0] as int - '0' as int))
    else None
  }

  /** `s.parse::<u16>()`: an optional `+`, then digits, at most 65535. */
  function ParseU16(s: string): Option<nat> {
    var digits := if s != "" && s[0] == '+' then s[1..] else s;
    if digits == "" then None
    else match ReadDigits(digits, 0)
      case None => None
      case Some(n) => if n <= 65535 then Some(n) else None
  }

  lemma {:induction false} ReadDigitsAppend(s: string, c: char, acc: nat)
    requires IsDigit(c) && forall i :: 0 <= i < |s| ==> IsDigit(s[i])
    ensures ReadDigits(s, acc).Some?
    ensures ReadDigits(s + [c], acc) == Some(10 * ReadDigits(s, acc).value + (c as int - '0' as int))
  {
    if s == "" {
      assert (s + [c])[1..] == "";
    } else {
      assert (s + [c])[1..] == s[1..] + [c];
      ReadDigitsAppend(s[1..], c, 10 * acc + (s[0] as int - '0' as int));
    }
  }

  lemma {:induction false} ReadDigitsShow(n: nat)
    ensures ReadDigits(Show(n), 0) == Some(n)
  {
    if n < 10 {
      assert Show(n)[1..] == "";
    } else {
      ReadDigitsShow(n / 10);
      ReadDigitsAppend(Show(n / 10), Digit(n % 10), 0);
    }
  }

  /** Rendering a parsed port and parsing it again gives the same port. */
  lemma ParseU16Show(n: nat)
    ensures ParseU16(Show(n)) == if n <= 65535 then Some(n) else None
  {
    ReadDigitsShow(n);
    assert IsDigit(Show(n)[0]);
  }

  /** The number a run of digits stands for. */
  function Number(s: string): nat
    requires forall i :: 0 <= i < |s| ==> IsDigit(s[i])
  {
    if s == "" then 0
    else
      var last := s[|s| - 1];
      assert IsDigit(last);
      10 * Number(s[..|s| - 1]) + (last as int - '0' as int)
  }

  lemma {:induction false} ReadDigitsNumber(s: string)
    requires forall i :: 0 <= i < |s| ==> IsDigit(s[i])
    ensures ReadDigits(s, 0) == Some(Number(s))
  {
    if s != "" {
      var n := |s| - 1;
      ReadDigitsNumber(s[..n]);
      ReadDigitsAppend(s[..n], s[n], 0);
      assert s == s[..n] + [s[n]];
    }
  }

  lemma {:induction false} ReadDigitsStops(s: string, acc: nat, k: nat)
    requires k < |s| && !IsDigit(s[k])
    ensures ReadDigits(s, acc) == None
  {
    if k > 0 && IsDigit(s[0]) {
      ReadDigitsStops(s[1..], 10 * acc + (s[0] as int - '0' as int), k - 1);
    }
  }

  /** A port is one or more digits, perhaps after a plus, that stand for a number of at most 16 bits. */
  lemma ParseU16Means(s: string)
    ensures var digits := if s != "" && s[0] == '+' then s[1..] else s;
      ParseU16(s) ==
        if digits != "" && (forall i :: 0 <= i < |digits| ==> IsDigit(digits[i])) && Number(digits) <= 65535
        then Some(Number(digits)) else None
  {
    var digits := if s != "" && s[0] == '+' then s[1..] else s;
    if k :| 0 <= k < |digits| && !IsDigit(digits[k]) {
      ReadDigitsStops(digits, 0, k);
    } else {
      ReadDigitsNumber(digits);
    }
  }

  // ─── Dotted names ───

  /** `key.split('.')` */
  function Split(key: string): (parts: seq<string>)
    ensures parts != []
  {
    if key == "" then [""]
    else if key[0] == '.' then [""] + Split(key[1..])
    else var rest := Split(key[1..]); [[key[0]] + rest[0]] + rest[1..]
  }

  function Dotted(parts: seq<string>): string
    requires parts != []
  {
    if |parts| == 1 then parts[0] else parts[0] + "." + Dotted(parts[1..])
  }

  predicate NoDot(s: string) {
    forall i :: 0 <= i < |s| ==> s[i] != '.'
  }

  lemma DottedHead(c: char, parts: seq<string>)
    requires parts != []
    ensures Dotted([[c] + parts[0]] + parts[1..]) == [c] + Dotted(parts)
  {
    var longer := [[c] + parts[0]] + parts[1..];
    assert longer[1..] == parts[1..];
  }

  lemma {:induction false} DottedSplit(key: string)
    ensures Dotted(Split(key)) == key
    ensures forall i :: 0 <= i < |Split(key)| ==> NoDot(Split(key)[i])
  {
    if key != "" {
      DottedSplit(key[1..]);
      var rest := Split(key[1..]);
      if key[0] == '.' {
        assert Split(key)[1..] == rest;
      } else {
        var parts := Split(key);
        assert parts[0] == [key[0]] + rest[0] && parts[1..] == rest[1..];
        assert NoDot(parts[0]);
        DottedHead(key[0], rest);
      }
    }
  }

  lemma {:induction false} SplitWord(word: string)
    requires NoDot(word)
    ensures Split(word) == [word]
  {
    if word != "" {
      SplitWord(word[1..]);
      assert word == [word[0]] + word[1..];
    }
  }

  lemma {:induction false} SplitDotted(word: string, key: string)
    requires NoDot(word)
    ensures Split(word + "." + key) == [word] + Split(key)
  {
    var s := word + "." + key;
    if word == "" {
      assert s[1..] == key;
    } else {
      SplitDotted(word[1..], key);
      assert s[1..] == word[1..] + "." + key;
      assert word == [word[0]] + word[1..];
    }
  }

  /** Appending one more part to a dotted name. */
  lemma {:induction false} SplitSnoc(key: string, word: string)
    requires NoDot(word)
    ensures Split(key + "." + word) == Split(key) + [word]
  {
    var s := key + "." + word;
    if key == "" {
      assert s[1..] == word;
      SplitWord(word);
    } else {
      assert s[1..] == key[1..] + "." + word;
      SplitSnoc(key[1..], word);
    }
  }
}
