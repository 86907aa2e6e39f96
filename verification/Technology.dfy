/** Technology tags read off an HTTP response (crates/scanerr-fingerprint/src/tech.rs). */
module Technology {
  import opened Text
  import opened Services
  import opened Fingerprint

  function Lookup(headers: seq<Header>, name: string): Option<HeaderValue> {
    if headers == [] then None
    else if headers[0].name == name then Some(headers[0].value)
    else Lookup(headers[1..], name)
  }

  /** `header_str`: the string, or the first of a list if that is a string. */
  function HeaderText(headers: seq<Header>, name: string): Option<string> {
    match Lookup(headers, name)
    case Some(Single(text)) => Some(text)
    case Some(Several(items)) => if items == [] then None else items[0]
    case _ => None
  }

  function TrimLeft(s: string): string {
    if s != "" && IsSpace(s[0]) then TrimLeft(s[1..]) else s
  }

  function TrimRight(s: string): string {
    if s != "" && IsSpace(s[|s| - 1]) then TrimRight(s[..|s| - 1]) else s
  }

  function TrimSpaces(s: string): string { TrimRight(TrimLeft(s)) }

  function BeforeSlash(s: string): (name: string)
    ensures |name| <= |s|
  {
    if s == "" || s[0] == '/' then "" else [s[0]] + BeforeSlash(s[1..])
  }

  /** `name` or `name/version`, each trimmed; nothing without a name. */
  function NameAndVersion(s: string): Option<string> {
    var before := BeforeSlash(s);
    var name := TrimSpaces(before);
    if name == "" then None
    else if |before| == |s| then Some(name)
    else Some(name + "/" + TrimSpaces(s[|before| + 1..]))
  }

  /** Names that say nothing about the product are passed over. */
  function ServerTag(fold: Folding, server: string): Option<string> {
    if fold(TrimSpaces(BeforeSlash(server))) in {"webs", "httpd", "web", "server"} then None
    else NameAndVersion(server)
  }

  /** `t` is `s` without the spaces around it. */
  predicate TrimmedTo(s: string, t: string, left: string, right: string) {
    && s == left + t + right
    && (forall i :: 0 <= i < |left| ==> IsSpace(left[i])) && (forall i :: 0 <= i < |right| ==> IsSpace(right[i]))
    && (t != "" ==> !IsSpace(t[0]) && !IsSpace(t[|t| - 1]))
  }

  lemma {:induction false} TrimLeftOf(left: string, t: string)
    requires (forall i :: 0 <= i < |left| ==> IsSpace(left[i])) && (t != "" ==> !IsSpace(t[0]))
    ensures TrimLeft(left + t) == t
    decreases |left|
  {
    if left == "" {
      assert left + t == t;
    } else {
      assert (left + t)[1..] == left[1..] + t;
      TrimLeftOf(left[1..], t);
    }
  }

  lemma {:induction false} TrimRightOf(t: string, right: string)
    requires (forall i :: 0 <= i < |right| ==> IsSpace(right[i])) && (t != "" ==> !IsSpace(t[|t| - 1]))
    ensures TrimRight(t + right) == t
    decreases |right|
  {
    if right == "" {
      assert t + right == t;
    } else {
      var n := |right| - 1;
      assert (t + right)[..|t + right| - 1] == t + right[..n];
      TrimRightOf(t, right[..n]);
    }
  }

  lemma {:induction false} AllSpacesTrim(s: string)
    requires forall i :: 0 <= i < |s| ==> IsSpace(s[i])
    ensures TrimLeft(s) == ""
    decreases |s|
  {
    if s != "" {
      AllSpacesTrim(s[1..]);
    }
  }

  lemma TrimmedIs(s: string, t: string, left: string, right: string)
    requires TrimmedTo(s, t, left, right)
    ensures TrimSpaces(s) == t
  {
    if t == "" {
      assert s == left + right;
      AllSpacesTrim(s);
    } else {
      assert s == left + (t + right);
      TrimLeftOf(left, t + right);
      TrimRightOf(t, right);
    }
  }

  lemma {:induction false} SlashParts(name: string, rest: string)
    requires forall i :: 0 <= i < |name| ==> name[i] != '/'
    requires rest == "" || rest[0] == '/'
    ensures BeforeSlash(name + rest) == name
    decreases |name|
  {
    if name != "" {
      assert (name + rest)[1..] == name[1..] + rest;
      SlashParts(name[1..], rest);
    }
  }

  /**
   A product header `name/version`, with spaces anywhere around the two, gives
   `name/version` without them; without a slash, the name; without a name, nothing.
   */
  lemma HeaderProduct(name: string, n: string, l: string, r: string, version: string, v: string, vl: string, vr: string)
    requires TrimmedTo(name, n, l, r) && TrimmedTo(version, v, vl, vr)
    requires forall i :: 0 <= i < |name| ==> name[i] != '/'
    ensures NameAndVersion(name + "/" + version) == if n == "" then None else Some(n + "/" + v)
    ensures NameAndVersion(name) == if n == "" then None else Some(n)
  {
    TrimmedIs(name, n, l, r);
    TrimmedIs(version, v, vl, vr);
    SlashParts(name, "/" + version);
    SlashParts(name, "");
    assert name + "" == name && name + "/" + version == name + ("/" + version);
    assert (name + "/" + version)[|name| + 1..] == version;
    hide TrimSpaces, TrimmedTo;
  }

  // ─── Libraries named in the page ───

  /** `s.find(part)` */
  function Find(s: string, part: string): (r: Option<nat>)
    ensures r.Some? ==> r.value + |part| <= |s| && s[r.value..r.value + |part|] == part
  {
    if |s| < |part| then None
    else if s[..|part|] == part then Some(0)
    else
      match Find(s[1..], part)
      case Some(i) => Some(i + 1)
      case None => None
  }

  function FindSeparator(s: string): (r: Option<nat>)
    ensures r.Some? ==> r.value < |s|
  {
    if s == "" then None
    else if s[0] == '/' || s[0] == '-' || s[0] == '.' then Some(0)
    else
      match FindSeparator(s[1..])
      case Some(i) => Some(i + 1)
      case None => None
  }

  predicate VersionChar(c: char) { IsAlnum(c) || c == '.' || c == '_' }

  function TakeVersion(s: string): string {
    if s == "" || !VersionChar(s[0]) then "" else [s[0]] + TakeVersion(s[1..])
  }

  predicate IsVersion(v: string) {
    v != "" && |v| < 20 && forall i :: 0 <= i < |v| ==> VersionChar(v[i])
  }

  lemma {:induction false} TakenIsPrefix(s: string)
    ensures TakeVersion(s) <= s && forall i :: 0 <= i < |TakeVersion(s)| ==> VersionChar(TakeVersion(s)[i])
  {
    if s != "" && VersionChar(s[0]) {
      TakenIsPrefix(s[1..]);
    }
  }

  /** What follows the name, at the first `/`, `-` or `.`; the pattern is looked for as it stands, brackets and all. */
  function VersionAfterName(body: string, name: string): string {
    match Find(Lower(body), name + "[/.]")
    case None => ""
    case Some(pos) =>
      var after := body[pos + |name|..];
      match FindSeparator(Lower(after))
      case None => ""
      case Some(i) => TakeVersion(after[i + 1..])
  }

  /** What follows `ver=` after the name and a question mark. */
  function VersionInQuery(body: string, name: string): string {
    match Find(Lower(body), name + "?")
    case None => ""
    case Some(pos) =>
      var after := body[pos..];
      match Find(Lower(after), "ver=")
      case None => ""
      case Some(i) => TakeVersion(after[i + 4..])
  }

  /** `extract_version_from` (lines 109-140), on ASCII pages. */
  function Version(body: string, name: string): Option<string> {
    var v, q := VersionAfterName(body, name), VersionInQuery(body, name);
    if v != "" && |v| < 20 then Some(v)
    else if q != "" && |q| < 20 then Some(q)
    else None
  }

  lemma TakenInside(body: string, at: nat)
    requires at <= |body|
    ensures var v := TakeVersion(body[at..]);
      HasSubstring(body, v) && forall i :: 0 <= i < |v| ==> VersionChar(v[i])
  {
    TakenIsPrefix(body[at..]);
  }

  lemma AfterNameInside(body: string, name: string)
    ensures var v := VersionAfterName(body, name);
      v != "" ==> HasSubstring(body, v) && forall i :: 0 <= i < |v| ==> VersionChar(v[i])
  {
    hide TakeVersion, HasSubstring, VersionChar;
    var pos := Find(Lower(body), name + "[/.]");
    if pos.Some? {
      var after := body[pos.value + |name|..];
      var i := FindSeparator(Lower(after));
      if i.Some? {
        assert after[i.value + 1..] == body[pos.value + |name| + i.value + 1..];
        TakenInside(body, pos.value + |name| + i.value + 1);
      }
    }
  }

  lemma InQueryInside(body: string, name: string)
    ensures var v := VersionInQuery(body, name);
      v != "" ==> HasSubstring(body, v) && forall i :: 0 <= i < |v| ==> VersionChar(v[i])
  {
    hide TakeVersion, HasSubstring, VersionChar;
    var pos := Find(Lower(body), name + "?");
    if pos.Some? {
      var after := body[pos.value..];
      var i := Find(Lower(after), "ver=");
      if i.Some? {
        assert after[i.value + 4..] == body[pos.value + i.value + 4..];
        TakenInside(body, pos.value + i.value + 4);
      }
    }
  }

  /** A version found is a version, and stands in the page. */
  lemma VersionShape(body: string, name: string)
    requires Version(body, name).Some?
    ensures IsVersion(Version(body, name).value) && HasSubstring(body, Version(body, name).value)
  {
    AfterNameInside(body, name);
    InQueryInside(body, name);
    hide VersionAfterName, VersionInQuery, HasSubstring, VersionChar;
  }

  predicate PartAt(s: string, part: string, i: nat) {
    i + |part| <= |s| && s[i..i + |part|] == part
  }

  /** The first place of `part` in `s`. */
  predicate FirstAt(s: string, part: string, i: nat) {
    PartAt(s, part, i) && forall j :: 0 <= j < i ==> !PartAt(s, part, j)
  }

  lemma PartInTail(s: string, part: string, i: nat)
    requires s != "" && i > 0
    ensures PartAt(s, part, i) <==> PartAt(s[1..], part, i - 1)
  {
    if i + |part| <= |s| {
      assert s[1..][i - 1..i - 1 + |part|] == s[i..i + |part|];
    }
  }

  lemma AtTheStart(s: string, part: string, i: nat)
    ensures PartAt(s, part, 0) <==> |part| <= |s| && s[..|part|] == part
    ensures PartAt(s, part, 0) ==> (FirstAt(s, part, i) <==> i == 0)
    ensures !PartAt(s, part, 0) ==> (FirstAt(s, part, i) ==> i > 0 && |part| <= |s|)
  {
    if |part| <= |s| {
      assert s[0..0 + |part|] == s[..|part|];
    }
  }

  lemma {:induction false} FindFirst(s: string, part: string, i: nat)
    ensures Find(s, part) == Some(i) <==> FirstAt(s, part, i)
  {
    hide PartAt, FirstAt;
    AtTheStart(s, part, i);
    if |part| <= |s| && !PartAt(s, part, 0) && i > 0 {
      FindFirst(s[1..], part, i - 1);
      FirstLater(s, part, i);
    }
  }

  lemma FirstLater(s: string, part: string, i: nat)
    requires 0 < i && s != "" && !PartAt(s, part, 0)
    ensures FirstAt(s, part, i) <==> FirstAt(s[1..], part, i - 1)
  {
    hide PartAt;
    PartInTail(s, part, i);
    forall j | 0 < j < i ensures PartAt(s, part, j) <==> PartAt(s[1..], part, j - 1) {
      PartInTail(s, part, j);
    }
    if FirstAt(s, part, i) {
      forall j | 0 <= j < i - 1 ensures !PartAt(s[1..], part, j) {
        assert !PartAt(s, part, j + 1);
      }
    }
  }

  lemma {:induction false} FindNothing(s: string, part: string)
    ensures Find(s, part) == None <==> forall i: nat :: !FirstAt(s, part, i)
  {
    forall i: nat ensures Find(s, part) == Some(i) <==> FirstAt(s, part, i) {
      FindFirst(s, part, i);
    }
    var found := Find(s, part);
    if found.Some? {
      assert FirstAt(s, part, found.value);
    }
  }

  /** All the version characters a text begins with. */
  predicate LongestRun(s: string, v: string) {
    v <= s && (forall i :: 0 <= i < |v| ==> VersionChar(v[i])) && (|v| < |s| ==> !VersionChar(s[|v|]))
  }

  lemma RunAtMost(s: string, t: string, v: string)
    requires LongestRun(s, v) && t <= s && forall i :: 0 <= i < |t| ==> VersionChar(t[i])
    ensures |t| <= |v|
  {
    hide VersionChar;
    forall i | 0 <= i < |t| ensures VersionChar(s[i]) {
      assert s[i] == t[i];
    }
  }

  lemma TakenIsLongest(s: string, v: string)
    ensures TakeVersion(s) == v <==> LongestRun(s, v)
  {
    TakenRuns(s);
    hide VersionChar, TakeVersion;
    if LongestRun(s, v) {
      RunAtMost(s, TakeVersion(s), v);
      RunAtMost(s, v, TakeVersion(s));
    }
  }

  lemma {:induction false} TakenRuns(s: string)
    ensures LongestRun(s, TakeVersion(s))
  {
    hide VersionChar;
    if s != "" && VersionChar(s[0]) {
      TakenRuns(s[1..]);
      assert TakeVersion(s) == [s[0]] + TakeVersion(s[1..]);
    }
  }

  /** A name's pattern, looked for as it stands, is followed by its own dot: that is the version it finds. */
  lemma PatternGivesDot(body: string, name: string)
    ensures VersionAfterName(body, name) == if Find(Lower(body), name + "[/.]").Some? then "." else ""
  {
    hide Find, Lower, FindSeparator, TakeVersion;
    var pos := Find(Lower(body), name + "[/.]");
    if pos.Some? {
      NoLetters();
      TailStands(body, name, "[/.]", pos.value);
      PartIsPrefix(body, "[/.]", pos.value + |name|);
      var after := body[pos.value + |name|..];
      FourChars(after);
      SeparatorSecond(after);
      DotTaken(after[2..]);
    }
  }

  lemma NoLetters()
    ensures forall k :: 0 <= k < 4 ==> !IsLower("[/.]"[k])
  {
  }

  lemma FourChars(after: string)
    requires "[/.]" <= after
    ensures |after| >= 4 && after[0] == '[' && after[1] == '/' && after[2] == '.' && after[3] == ']'
  {
    var four := "[/.]";
    assert after[0] == four[0] && after[1] == four[1] && after[2] == four[2] && after[3] == four[3];
  }

  lemma DotTaken(s: string)
    requires |s| >= 2 && s[0] == '.' && s[1] == ']'
    ensures TakeVersion(s) == "."
  {
    assert s[1..][0] == ']';
  }

  lemma PartEnds(s: string, a: string, b: string, pos: nat)
    requires PartAt(s, a + b, pos)
    ensures PartAt(s, b, pos + |a|)
  {
    assert s[pos..pos + |a + b|][|a|..] == b;
  }

  /** What has no letter in it stands in the page as it stands in the lower-cased page. */
  lemma AsItStands(body: string, t: string, at: nat)
    requires PartAt(Lower(body), t, at) && forall k :: 0 <= k < |t| ==> !IsLower(t[k])
    ensures PartAt(body, t, at)
  {
    forall k | 0 <= k < |t| ensures body[at + k] == t[k] {
      assert Lower(body)[at..at + |t|][k] == t[k];
      Uncased(body[at + k], t[k]);
    }
  }

  lemma PartIsPrefix(s: string, t: string, at: nat)
    requires PartAt(s, t, at)
    ensures at + |t| <= |s| && t <= s[at..]
  {
    forall k | 0 <= k < |t| ensures s[at..][k] == t[k] {
      assert s[at..at + |t|][k] == t[k];
    }
  }

  lemma TailStands(body: string, name: string, t: string, pos: nat)
    requires PartAt(Lower(body), name + t, pos) && forall k :: 0 <= k < |t| ==> !IsLower(t[k])
    ensures PartAt(body, t, pos + |name|)
  {
    PartEnds(Lower(body), name, t, pos);
    AsItStands(body, t, pos + |name|);
  }

  lemma Uncased(c: char, d: char)
    requires LowerChar(c) == d && !IsLower(d)
    ensures c == d
  {
  }

  lemma SeparatorSecond(after: string)
    requires |after| >= 2 && after[0] == '[' && after[1] == '/'
    ensures FindSeparator(Lower(after)) == Some(1)
  {
    var l := Lower(after);
    assert l[0] == '[' && l[1] == '/' && l[1..][0] == '/';
  }

  /**
   What version a page tells of a library. Where its pattern stands as it is, a
   dot; elsewhere what follows the first `ver=` after the first mention of the
   library with a question mark, in any case: one to nineteen version characters.
   */
  lemma VersionExactly(body: string, name: string, v: string)
    ensures var page := Lower(body);
      && ((exists k: nat :: FirstAt(page, name + "[/.]", k)) ==> Version(body, name) == Some("."))
      && ((forall k: nat :: !FirstAt(page, name + "[/.]", k)) ==>
            (Version(body, name) == Some(v) <==> exists pos: nat, i: nat :: InQuery(body, name, v, pos, i)))
  {
    PatternGivesDot(body, name);
    FindNothing(Lower(body), name + "[/.]");
    QueryFinds(body, name, v);
    hide VersionAfterName, VersionInQuery, FirstAt, Lower, Find, InQuery;
  }

  lemma QueryAt(body: string, name: string, pos: nat, i: nat)
    requires Find(Lower(body), name + "?") == Some(pos) && Find(Lower(body[pos..]), "ver=") == Some(i)
    ensures pos + i + 4 <= |body| && VersionInQuery(body, name) == TakeVersion(body[pos + i + 4..])
  {
    hide Lower, TakeVersion, Find;
    TailOfTail(body, pos, i + 4);
  }

  lemma TailOfTail(s: string, a: nat, b: nat)
    requires a + b <= |s|
    ensures s[a..][b..] == s[a + b..]
  {
  }

  lemma QueryFound(body: string, name: string, v: string, pos: nat, i: nat)
    requires InQuery(body, name, v, pos, i)
    ensures VersionInQuery(body, name) == v
  {
    hide Lower, TakeVersion, LongestRun, FirstAt, Find, VersionInQuery;
    FindFirst(Lower(body), name + "?", pos);
    FindFirst(Lower(body[pos..]), "ver=", i);
    QueryAt(body, name, pos, i);
    TakenIsLongest(body[pos + i + 4..], v);
  }

  predicate InQuery(body: string, name: string, v: string, pos: nat, i: nat) {
    && FirstAt(Lower(body), name + "?", pos) && FirstAt(Lower(body[pos..]), "ver=", i)
    && LongestRun(body[pos + i + 4..], v) && 0 < |v| < 20
  }

  lemma QueryFinds(body: string, name: string, v: string)
    ensures v != "" && |v| < 20 ==>
      (VersionInQuery(body, name) == v <==> exists pos: nat, i: nat :: InQuery(body, name, v, pos, i))
    ensures (v == "" || |v| >= 20) ==> forall pos: nat, i: nat :: !InQuery(body, name, v, pos, i)
  {
    hide Lower, TakeVersion, LongestRun, FirstAt, Find;
    forall pos: nat, i: nat | InQuery(body, name, v, pos, i) ensures VersionInQuery(body, name) == v {
      QueryFound(body, name, v, pos, i);
    }
    var pos := Find(Lower(body), name + "?");
    if VersionInQuery(body, name) == v && 0 < |v| < 20 && pos.Some? {
      var i := Find(Lower(body[pos.value..]), "ver=");
      if i.Some? {
        FindFirst(Lower(body), name + "?", pos.value);
        FindFirst(Lower(body[pos.value..]), "ver=", i.value);
        QueryAt(body, name, pos.value, i.value);
        TakenIsLongest(body[pos.value + i.value + 4..], v);
        assert InQuery(body, name, v, pos.value, i.value);
      }
    }
  }

  datatype Sign = Sign(display: string, name: string, marks: seq<string>)

  /** The libraries looked for once one of their marks is in the page (lines 33-65). */
  const SIGNS: seq<Sign> := [
    Sign("Bootstrap", "bootstrap", ["bootstrap.min.css", "bootstrap.min.js"]),
    Sign("React", "react", ["react.min.js", "react.production.min.js", "__REACT"]),
    Sign("Vue.js", "vue", ["vue.min.js", "vue.js", "data-v-"]),
    Sign("Angular", "angular", ["angular.min.js", "ng-app", "ng-controller"])
  ]

  function Labelled(display: string, version: Option<string>): string {
    if version.Some? then display + "/" + version.value else display
  }

  predicate Marked(body: string, marks: seq<string>) {
    exists i :: 0 <= i < |marks| && HasSubstring(body, marks[i])
  }

  function SignTag(body: string, sign: Sign): Option<string> {
    if Marked(body, sign.marks) then Some(Labelled(sign.display, Version(body, sign.name))) else None
  }

  /** jQuery shows by its version only. */
  function JqueryTag(body: string): Option<string> {
    match Version(body, "jquery")
    case Some(v) => Some("jQuery/" + v)
    case None => None
  }

  function SignTags(body: string, signs: seq<Sign>): seq<string> {
    if signs == [] then []
    else
      var n := |signs| - 1;
      SignTags(body, signs[..n]) + Listed(SignTag(body, signs[n]))
  }

  function BodyTags(body: string): seq<string> {
    Listed(JqueryTag(body)) + SignTags(body, SIGNS)
  }

  // ─── All tags ───

  function Listed(tag: Option<string>): seq<string> {
    if tag.Some? then [tag.value] else []
  }

  /** The tags in the order they are offered. */
  function Offered(fold: Folding, headers: seq<Header>, body: string): seq<string> {
    var server, powered := HeaderText(headers, "server"), HeaderText(headers, "x-powered-by");
    Listed(if server.Some? then ServerTag(fold, server.value) else None)
    + Listed(if powered.Some? then NameAndVersion(TrimSpaces(powered.value)) else None)
    + (if HeaderText(headers, "x-aspnet-version").Some? || HeaderText(headers, "x-aspnetmvc-version").Some?
       then ["ASP.NET"] else [])
    + BodyTags(body)
  }

  function Detected(fold: Folding, headers: seq<Header>, body: string): seq<string> {
    Merge([], Offered(fold, headers, body))
  }

  method PushUnique(out: seq<string>, tag: string) returns (r: seq<string>)
    ensures r == AddTag(out, tag)
  {
    r := out;
    if !Has(out, tag) {
      r := r + [tag];
    }
  }

  method PushListed(out: seq<string>, ghost offered: seq<string>, tag: Option<string>) returns (r: seq<string>)
    requires out == Merge([], offered)
    ensures r == Merge([], offered + Listed(tag))
  {
    r := out;
    if tag.Some? {
      assert (offered + [tag.value])[..|offered|] == offered;
      r := PushUnique(r, tag.value);
    } else {
      assert offered + [] == offered;
    }
  }

  lemma MergeAppend(tags: seq<string>, a: seq<string>, b: seq<string>)
    ensures Merge(tags, a + b) == Merge(Merge(tags, a), b)
    decreases |b|
  {
    if b == [] {
      assert a + b == a;
    } else {
      var n := |b| - 1;
      assert (a + b)[..|a + b| - 1] == a + b[..n];
      MergeAppend(tags, a, b[..n]);
    }
  }

  method Detect(fold: Folding, headers: seq<Header>, body: string)
    returns (tags: seq<string>)
    ensures tags == Detected(fold, headers, body)
  {
    tags := [];
    assert tags == Merge([], []);
    hide Merge, HeaderText, ServerTag, NameAndVersion, BodyTags, TrimSpaces;
    var tag := None;
    var server := HeaderText(headers, "server");
    if server.Some? {
      tag := ServerTag(fold, server.value);
    }
    ghost var offered := Listed(tag);
    assert [] + offered == offered;
    tags := PushListed(tags, [], tag);
    tag := None;
    var powered := HeaderText(headers, "x-powered-by");
    if powered.Some? {
      tag := NameAndVersion(TrimSpaces(powered.value));
    }
    tags := PushListed(tags, offered, tag);
    offered := offered + Listed(tag);
    tag := None;
    if HeaderText(headers, "x-aspnet-version").Some? || HeaderText(headers, "x-aspnetmvc-version").Some? {
      tag := Some("ASP.NET");
    }
    tags := PushListed(tags, offered, tag);
    offered := offered + Listed(tag);
    MergeAppend([], offered, BodyTags(body));
    tags := DetectInBody(body, tags);
  }

  lemma SignTagsStep(body: string, out: seq<string>, signs: seq<Sign>, i: nat)
    requires i < |signs|
    ensures var tag := SignTag(body, signs[i]);
      Merge(out, SignTags(body, signs[..i + 1])) ==
        if tag.Some? then AddTag(Merge(out, SignTags(body, signs[..i])), tag.value)
        else Merge(out, SignTags(body, signs[..i]))
  {
    hide Merge, SignTag;
    assert signs[..i + 1][..i] == signs[..i];
    MergeListed(out, SignTags(body, signs[..i]), SignTag(body, signs[i]));
  }

  method DetectSigns(body: string, out: seq<string>, signs: seq<Sign>) returns (tags: seq<string>)
    ensures tags == Merge(out, SignTags(body, signs))
  {
    tags := out;
    for i := 0 to |signs|
      invariant tags == Merge(out, SignTags(body, signs[..i]))
    {
      hide Merge, Version, Marked, AddTag, SignTags;
      SignTagsStep(body, out, signs, i);
      if Marked(body, signs[i].marks) {
        tags := PushUnique(tags, Labelled(signs[i].display, Version(body, signs[i].name)));
      }
    }
    assert signs[..|signs|] == signs;
  }

  /** Lines 25-66. */
  method DetectInBody(body: string, out: seq<string>) returns (tags: seq<string>)
    ensures tags == Merge(out, BodyTags(body))
  {
    tags := out;
    var jquery := Version(body, "jquery");
    if jquery.Some? {
      tags := PushUnique(tags, "jQuery/" + jquery.value);
    }
    JqueryMerged(body, out);
    hide Merge, Version, SignTags;
    MergeAppend(out, Listed(JqueryTag(body)), SignTags(body, SIGNS));
    tags := DetectSigns(body, tags, SIGNS);
  }

  lemma JqueryMerged(body: string, out: seq<string>)
    ensures Merge(out, Listed(JqueryTag(body))) ==
      if JqueryTag(body).Some? then AddTag(out, JqueryTag(body).value) else out
  {
    hide Version;
    MergeListed(out, [], JqueryTag(body));
    assert [] + Listed(JqueryTag(body)) == Listed(JqueryTag(body));
    assert Merge(out, []) == out;
  }

  lemma MergeListed(out: seq<string>, offered: seq<string>, tag: Option<string>)
    ensures Merge(out, offered + Listed(tag)) ==
      if tag.Some? then AddTag(Merge(out, offered), tag.value) else Merge(out, offered)
  {
    if tag.Some? {
      assert (offered + [tag.value])[..|offered|] == offered;
    } else {
      assert offered + [] == offered;
    }
  }

  /** Every offered tag is there in some case, and no two detected tags are alike. */
  lemma DetectedDistinct(fold: Folding, headers: seq<Header>, body: string)
    ensures var tags := Detected(fold, headers, body);
      && (forall i, j :: 0 <= i < j < |tags| ==> !SameIgnoringCase(tags[i], tags[j]))
      && (forall k :: 0 <= k < |Offered(fold, headers, body)| ==>
            Has(tags, Offered(fold, headers, body)[k]))
  {
    var offered := Offered(fold, headers, body);
    hide Offered, Merge;
    MergeKeeps([], offered);
    forall k | 0 <= k < |offered| ensures Has(Merge([], offered), offered[k]) {
      MergeHas([], offered, k);
    }
  }

  /** A library's tag, with the version the page tells of it if it tells one. */
  predicate Named(body: string, display: string, name: string, tag: string) {
    tag == match Version(body, name) case Some(v) => display + "/" + v case None => display
  }

  /** What headers and page say of the software behind them. */
  predicate Shows(fold: Folding, headers: seq<Header>, body: string, tag: string) {
    var server, powered := HeaderText(headers, "server"), HeaderText(headers, "x-powered-by");
    || (server.Some? && NameAndVersion(server.value) == Some(tag)
        && var name := fold(TrimSpaces(BeforeSlash(server.value)));
           name != "webs" && name != "httpd" && name != "web" && name != "server")
    || (powered.Some? && NameAndVersion(TrimSpaces(powered.value)) == Some(tag))
    || (tag == "ASP.NET"
        && (HeaderText(headers, "x-aspnet-version").Some? || HeaderText(headers, "x-aspnetmvc-version").Some?))
    || (Version(body, "jquery").Some? && tag == "jQuery/" + Version(body, "jquery").value)
    || (Named(body, "Bootstrap", "bootstrap", tag)
        && (HasSubstring(body, "bootstrap.min.css") || HasSubstring(body, "bootstrap.min.js")))
    || (Named(body, "React", "react", tag)
        && (HasSubstring(body, "react.min.js") || HasSubstring(body, "react.production.min.js")
            || HasSubstring(body, "__REACT")))
    || (Named(body, "Vue.js", "vue", tag)
        && (HasSubstring(body, "vue.min.js") || HasSubstring(body, "vue.js") || HasSubstring(body, "data-v-")))
    || (Named(body, "Angular", "angular", tag)
        && (HasSubstring(body, "angular.min.js") || HasSubstring(body, "ng-app") || HasSubstring(body, "ng-controller")))
  }

  lemma TwoMarks(body: string, a: string, b: string)
    ensures Marked(body, [a, b]) <==> HasSubstring(body, a) || HasSubstring(body, b)
  {
    hide HasSubstring;
    assert [a, b][0] == a && [a, b][1] == b;
  }

  lemma ThreeMarks(body: string, a: string, b: string, c: string)
    ensures Marked(body, [a, b, c]) <==> HasSubstring(body, a) || HasSubstring(body, b) || HasSubstring(body, c)
  {
    hide HasSubstring;
    assert [a, b, c][0] == a && [a, b, c][1] == b && [a, b, c][2] == c;
  }

  lemma SignNames(body: string, sign: Sign, tag: string)
    ensures tag in Listed(SignTag(body, sign)) <==>
      Marked(body, sign.marks) && Named(body, sign.display, sign.name, tag)
  {
    hide Version, Marked;
  }

  predicate Told(body: string, sign: Sign, tag: string) {
    tag in Listed(SignTag(body, sign))
  }

  lemma SignStep(body: string, signs: seq<Sign>, tag: string)
    requires signs != []
    ensures tag in SignTags(body, signs) <==>
      tag in SignTags(body, signs[..|signs| - 1]) || Told(body, signs[|signs| - 1], tag)
  {
    hide SignTag;
  }

  lemma {:induction false} SignsTell(body: string, signs: seq<Sign>, tag: string)
    ensures tag in SignTags(body, signs) <==> exists i :: 0 <= i < |signs| && Told(body, signs[i], tag)
  {
    hide SignTags, Told;
    if signs == [] {
      NoSigns(body);
    } else {
      var n := |signs| - 1;
      SignStep(body, signs, tag);
      SignsTell(body, signs[..n], tag);
      assert signs == signs[..n] + [signs[n]];
    }
  }

  lemma NoSigns(body: string)
    ensures SignTags(body, []) == []
  {
  }

  lemma FourSigns(signs: seq<Sign>, told: Sign -> bool)
    requires |signs| == 4
    ensures (exists i :: 0 <= i < |signs| && told(signs[i])) <==>
      told(signs[0]) || told(signs[1]) || told(signs[2]) || told(signs[3])
  {
  }

  lemma OfferedBySigns(body: string, tag: string)
    ensures tag in SignTags(body, SIGNS) <==>
      || (Marked(body, ["bootstrap.min.css", "bootstrap.min.js"]) && Named(body, "Bootstrap", "bootstrap", tag))
      || (Marked(body, ["react.min.js", "react.production.min.js", "__REACT"]) && Named(body, "React", "react", tag))
      || (Marked(body, ["vue.min.js", "vue.js", "data-v-"]) && Named(body, "Vue.js", "vue", tag))
      || (Marked(body, ["angular.min.js", "ng-app", "ng-controller"]) && Named(body, "Angular", "angular", tag))
  {
    SignsTell(body, SIGNS, tag);
    SignNames(body, SIGNS[0], tag);
    SignNames(body, SIGNS[1], tag);
    SignNames(body, SIGNS[2], tag);
    SignNames(body, SIGNS[3], tag);
    hide SignTags, SignTag, Listed, Marked, Named;
    FourSigns(SIGNS, (sign: Sign) => Told(body, sign, tag));
  }

  lemma PageShows(body: string, tag: string)
    ensures tag in BodyTags(body) <==>
      || (Version(body, "jquery").Some? && tag == "jQuery/" + Version(body, "jquery").value)
      || (Named(body, "Bootstrap", "bootstrap", tag)
          && (HasSubstring(body, "bootstrap.min.css") || HasSubstring(body, "bootstrap.min.js")))
      || (Named(body, "React", "react", tag)
          && (HasSubstring(body, "react.min.js") || HasSubstring(body, "react.production.min.js")
              || HasSubstring(body, "__REACT")))
      || (Named(body, "Vue.js", "vue", tag)
          && (HasSubstring(body, "vue.min.js") || HasSubstring(body, "vue.js") || HasSubstring(body, "data-v-")))
      || (Named(body, "Angular", "angular", tag)
          && (HasSubstring(body, "angular.min.js") || HasSubstring(body, "ng-app") || HasSubstring(body, "ng-controller")))
  {
    hide Marked, Named, Version, HasSubstring, SignTags;
    OfferedBySigns(body, tag);
    TwoMarks(body, "bootstrap.min.css", "bootstrap.min.js");
    ThreeMarks(body, "react.min.js", "react.production.min.js", "__REACT");
    ThreeMarks(body, "vue.min.js", "vue.js", "data-v-");
    ThreeMarks(body, "angular.min.js", "ng-app", "ng-controller");
  }

  lemma OfferedShows(fold: Folding, headers: seq<Header>, body: string, tag: string)
    ensures tag in Offered(fold, headers, body) <==> Shows(fold, headers, body, tag)
  {
    hide BodyTags, Named, Version, HasSubstring, NameAndVersion, HeaderText, TrimSpaces, BeforeSlash;
    PageShows(body, tag);
  }

  lemma HasSome(tags: seq<string>, tag: string)
    ensures Has(tags, tag) <==> exists t :: t in tags && SameIgnoringCase(t, tag)
  {
    hide SameIgnoringCase;
    if Has(tags, tag) {
      var i :| 0 <= i < |tags| && SameIgnoringCase(tags[i], tag);
      assert tags[i] in tags;
    }
  }

  /** A tag is detected, in some case, exactly when headers or page show it. */
  lemma DetectedShown(fold: Folding, headers: seq<Header>, body: string, tag: string)
    ensures Has(Detected(fold, headers, body), tag) <==>
      exists shown :: Shows(fold, headers, body, shown) && SameIgnoringCase(shown, tag)
  {
    hide Offered, Shows, SameIgnoringCase, Merge, Has;
    var offered := Offered(fold, headers, body);
    MergedHas([], offered, tag);
    HasSome([], tag);
    HasSome(offered, tag);
    forall t ensures t in offered <==> Shows(fold, headers, body, t) {
      OfferedShows(fold, headers, body, t);
    }
  }

  lemma NoVersionInEmptyPage(name: string)
    ensures Version("", name) == None
  {
    assert Lower("") == "";
  }

  lemma {:induction false} NoSignsInEmptyPage(signs: seq<Sign>)
    requires forall i, j :: 0 <= i < |signs| && 0 <= j < |signs[i].marks| ==> signs[i].marks[j] != ""
    ensures SignTags("", signs) == []
  {
    if signs != [] {
      var n := |signs| - 1;
      NoSignsInEmptyPage(signs[..n]);
      assert !Marked("", signs[n].marks);
    }
  }

  /** An empty page names no library. */
  lemma NothingInEmptyPage()
    ensures BodyTags("") == []
  {
    NoVersionInEmptyPage("jquery");
    hide Version;
    NoSignsInEmptyPage(SIGNS);
  }
}
