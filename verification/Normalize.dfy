/** Canonical kinds, product slugs and category tags (src/normalize.rs). */
module Normalize {
  import opened Text
  import opened Ordering
  import opened Services

  // ─── Kind ───

  function CanonicalKind(kind: string): string {
    match kind
    case "https" => "http"
    case "camera" => "http"
    case _ => kind
  }

  function KindCategory(kind: string): Option<string> {
    match kind
    case "http" => Some("web")
    case "ssh" => Some("remote-access")
    case "telnet" => Some("remote-access")
    case "ftp" => Some("file-transfer")
    case "smtp" => Some("mail")
    case "imap" => Some("mail")
    case "pop3" => Some("mail")
    case "mysql" => Some("database")
    case "mqtt" => Some("iot")
    case "pptp" => Some("vpn")
    case "sccp" => Some("voip")
    case "mikrotik" => Some("networking")
    case "bgp" => Some("networking")
    case "rtsp" => Some("camera")
    case _ => None
  }

  /** The kinds of each category. */
  lemma KindsOfCategory(kind: string)
    ensures var category := KindCategory(kind);
      && (category == Some("web") <==> kind == "http")
      && (category == Some("remote-access") <==> kind in {"ssh", "telnet"})
      && (category == Some("file-transfer") <==> kind == "ftp")
      && (category == Some("mail") <==> kind in {"smtp", "imap", "pop3"})
      && (category == Some("database") <==> kind == "mysql")
      && (category == Some("iot") <==> kind == "mqtt")
      && (category == Some("vpn") <==> kind == "pptp")
      && (category == Some("voip") <==> kind == "sccp")
      && (category == Some("networking") <==> kind in {"mikrotik", "bgp"})
      && (category == Some("camera") <==> kind == "rtsp")
  {
  }

  // ─── Product ───

  function ProductOverride(raw: string): Option<string> {
    match raw
    case "OpenSSH" => Some("openssh")
    case "nginx" => Some("nginx")
    case "Apache httpd" => Some("apache")
    case "Microsoft IIS" => Some("iis")
    case "LiteSpeed" => Some("litespeed")
    case "MikroTik" => Some("mikrotik")
    case "MikroTik RouterOS" => Some("mikrotik")
    case "MikroTik EQUINIX SO1 CORE" => Some("mikrotik")
    case "MariaDB" => Some("mariadb")
    case "MySQL" => Some("mysql")
    case "Google Web Server" => Some("gws")
    case "Amazon CloudFront" => Some("cloudfront")
    case "Nginx Proxy Manager" => Some("nginx-proxy-manager")
    case "UniFi OS" => Some("unifi-os")
    case "SIGPLUS" => Some("sigplus")
    case "XAMPP" => Some("xampp")
    case "Nextcloud" => Some("nextcloud")
    case "Pritunl" => Some("pritunl")
    case "BigBlueButton" => Some("bigbluebutton")
    case "MOBOTIX Camera" => Some("mobotix")
    case "Wazuh" => Some("wazuh")
    case "Cacti" => Some("cacti")
    case "Nagios" => Some("nagios")
    case "BGP" => Some("bgp")
    case "Cloudflare" => Some("cloudflare")
    case "Sucuri" => Some("sucuri")
    case _ => None
  }

  predicate SlugChar(c: char) { IsDigit(c) || IsLower(c) }

  predicate Separator(c: char) { c == ' ' || c == '_' || c == '-' }

  /** Lower-case letters and digits, with single hyphens strictly inside. */
  predicate IsSlug(s: string) {
    && (forall i :: 0 <= i < |s| ==> SlugChar(s[i]) || s[i] == '-')
    && (forall i :: 0 < i < |s| ==> s[i] != '-' || s[i - 1] != '-')
    && (s != "" ==> s[0] != '-' && s[|s| - 1] != '-')
  }

  /** The letters and digits of a text, in lower case. */
  function Letters(s: string): string {
    if s == "" then ""
    else
      var c := LowerChar(s[|s| - 1]);
      Letters(s[..|s| - 1]) + if SlugChar(c) then [c] else ""
  }

  /** Letters and digits kept; a run of separators, even with other characters between, becomes one hyphen. */
  function Hyphenated(s: string): string {
    if s == "" then ""
    else
      var before := Hyphenated(s[..|s| - 1]);
      var c := LowerChar(s[|s| - 1]);
      if SlugChar(c) then before + [c]
      else if Separator(c) && !EndsWith(before, "-") then before + "-"
      else before
  }

  function TrimStart(s: string): string {
    if s != "" && s[0] == '-' then TrimStart(s[1..]) else s
  }

  function TrimEnd(s: string): string {
    if s != "" && s[|s| - 1] == '-' then TrimEnd(s[..|s| - 1]) else s
  }

  /** `trim_matches('-')` */
  function Trim(s: string): string { TrimEnd(TrimStart(s)) }

  function Slug(s: string): string { Trim(Hyphenated(s)) }

  method Slugify(s: string) returns (slug: string)
    ensures slug == Slug(s)
  {
    var out := "";
    var prevWasDash := false;
    for i := 0 to |s|
      invariant out == Hyphenated(s[..i])
      invariant prevWasDash ==> EndsWith(out, "-")
    {
      assert s[..i + 1][..i] == s[..i];
      var c := LowerChar(s[i]);
      if IsAlnum(c) {
        out := out + [c];
        prevWasDash := false;
      } else if c == ' ' || c == '_' || c == '-' {
        if !prevWasDash && !EndsWith(out, "-") {
          out := out + "-";
          prevWasDash := true;
        }
      }
    }
    assert s[..|s|] == s;
    slug := Trim(out);
  }

  /** A slug but for hyphens at its ends. */
  predicate NearSlug(s: string) {
    && (forall i :: 0 <= i < |s| ==> SlugChar(s[i]) || s[i] == '-')
    && (forall i :: 0 < i < |s| ==> s[i] != '-' || s[i - 1] != '-')
  }

  lemma {:induction false} HyphenatedNear(s: string)
    ensures NearSlug(Hyphenated(s)) && Letters(Hyphenated(s)) == Letters(s)
  {
    if s != "" {
      var t := s[..|s| - 1];
      HyphenatedNear(t);
      var before := Hyphenated(t);
      var c := LowerChar(s[|s| - 1]);
      LettersSnoc(before, c);
      LettersSnoc(before, '-');
    }
  }

  lemma LettersSnoc(s: string, c: char)
    ensures Letters(s + [c]) == Letters(s) + if SlugChar(LowerChar(c)) then [LowerChar(c)] else ""
  {
    assert (s + [c])[..|s|] == s;
  }

  lemma {:induction false} TrimStartNear(s: string)
    requires NearSlug(s)
    ensures NearSlug(TrimStart(s)) && (TrimStart(s) != "" ==> TrimStart(s)[0] != '-')
    ensures Letters(TrimStart(s)) == Letters(s)
  {
    if s != "" && s[0] == '-' {
      TrimStartNear(s[1..]);
      LettersCons(s);
    }
  }

  lemma {:induction false} LettersCons(s: string)
    requires s != "" && s[0] == '-'
    ensures Letters(s) == Letters(s[1..])
  {
    if |s| > 1 {
      LettersCons(s[..|s| - 1]);
      assert s[1..][..|s| - 2] == s[..|s| - 1][1..];
    } else {
      assert s[..0] == "";
    }
  }

  lemma {:induction false} TrimEndSlug(s: string)
    requires NearSlug(s) && (s != "" ==> s[0] != '-')
    ensures IsSlug(TrimEnd(s)) && Letters(TrimEnd(s)) == Letters(s)
  {
    if s != "" && s[|s| - 1] == '-' {
      TrimEndSlug(s[..|s| - 1]);
    }
  }

  /** Every slug has the slug form and keeps the letters and digits of its text. */
  lemma SlugForm(s: string)
    ensures IsSlug(Slug(s)) && Letters(Slug(s)) == Letters(s)
  {
    HyphenatedNear(s);
    TrimStartNear(Hyphenated(s));
    TrimEndSlug(TrimStart(Hyphenated(s)));
  }

  lemma {:induction false} HyphenatedKeeps(s: string)
    requires NearSlug(s)
    ensures Hyphenated(s) == s
  {
    if s != "" {
      HyphenatedKeeps(s[..|s| - 1]);
      assert s == s[..|s| - 1] + [s[|s| - 1]];
    }
  }

  /** The fixed points of slugging are exactly the slugs. */
  lemma SlugFixed(s: string)
    ensures Slug(s) == s <==> IsSlug(s)
  {
    SlugForm(s);
    if IsSlug(s) {
      HyphenatedKeeps(s);
    }
  }

  // The slug by its words.

  /** The pieces of a text between its spaces, underscores and hyphens. */
  function Pieces(s: string): (ps: seq<string>)
    ensures ps != []
  {
    if s == "" then [""]
    else
      var n := |s| - 1;
      var ps := Pieces(s[..n]);
      if s[n] == ' ' || s[n] == '_' || s[n] == '-' then ps + [""]
      else ps[..|ps| - 1] + [ps[|ps| - 1] + [s[n]]]
  }

  /** The letters and digits of each piece that has any. */
  function WordsOf(ps: seq<string>): seq<string> {
    if ps == [] then []
    else
      var n := |ps| - 1;
      WordsOf(ps[..n]) + if Letters(ps[n]) == "" then [] else [Letters(ps[n])]
  }

  function JoinedWords(ws: seq<string>): string {
    if ws == [] then ""
    else if |ws| == 1 then ws[0]
    else JoinedWords(ws[..|ws| - 1]) + "-" + ws[|ws| - 1]
  }

  /** The words finished so far, each with a hyphen before the next, and the one under way. */
  function Trail(ws: seq<string>, w: string): string {
    JoinedWords(ws) + (if ws == [] then "" else "-") + w
  }

  function Underway(ps: seq<string>): string
    requires ps != []
  {
    Trail(WordsOf(ps[..|ps| - 1]), Letters(ps[|ps| - 1]))
  }

  lemma {:induction false} LettersNoHyphen(s: string)
    ensures forall i :: 0 <= i < |Letters(s)| ==> SlugChar(Letters(s)[i])
  {
    if s != "" {
      LettersNoHyphen(s[..|s| - 1]);
    }
  }

  lemma {:induction false} TrimStartAppend(s: string, t: string)
    ensures TrimStart(s + t) == if TrimStart(s) == "" then TrimStart(t) else TrimStart(s) + t
  {
    if s == "" {
      assert s + t == t;
    } else if s[0] == '-' {
      assert (s + t)[1..] == s[1..] + t;
      TrimStartAppend(s[1..], t);
    }
  }

  lemma UnderwayEnds(ps: seq<string>)
    requires ps != []
    ensures var u := Underway(ps);
      && (u == "" <==> WordsOf(ps) == [])
      && (u != "" && u[|u| - 1] != '-' <==> Letters(ps[|ps| - 1]) != "")
  {
    LettersNoHyphen(ps[|ps| - 1]);
  }

  lemma JoinedSnoc(ws: seq<string>, w: string)
    ensures JoinedWords(ws + [w]) == Trail(ws, w)
    ensures Trail(ws, "") == if ws == [] then "" else JoinedWords(ws) + "-"
  {
    assert (ws + [w])[..|ws|] == ws;
  }

  lemma WordsSnoc(ps: seq<string>)
    requires ps != []
    ensures var n := |ps| - 1;
      WordsOf(ps) == if Letters(ps[n]) == "" then WordsOf(ps[..n]) else WordsOf(ps[..n]) + [Letters(ps[n])]
  {
  }

  lemma UnderwayNext(ps: seq<string>)
    ensures Underway(ps + [""]) == Trail(WordsOf(ps), "")
  {
    assert (ps + [""])[..|ps|] == ps;
  }

  lemma UnderwayJoins(ps: seq<string>)
    requires ps != []
    ensures Underway(ps + [""]) == if Letters(ps[|ps| - 1]) == "" then Underway(ps) else Underway(ps) + "-"
    ensures JoinedWords(WordsOf(ps)) ==
      if Letters(ps[|ps| - 1]) == "" then JoinedWords(WordsOf(ps[..|ps| - 1])) else Underway(ps)
  {
    hide JoinedWords, WordsOf, Letters, Trail;
    var n := |ps| - 1;
    var ws, w := WordsOf(ps[..n]), Letters(ps[n]);
    UnderwayNext(ps);
    WordsSnoc(ps);
    JoinedSnoc(ws, w);
    JoinedSnoc(WordsOf(ps), w);
  }

  lemma {:induction false} WordsAreLetters(ps: seq<string>)
    ensures forall i :: 0 <= i < |WordsOf(ps)| ==>
      var w := WordsOf(ps)[i]; w != "" && w[|w| - 1] != '-'
  {
    if ps != [] {
      WordsAreLetters(ps[..|ps| - 1]);
      LettersNoHyphen(ps[|ps| - 1]);
    }
  }

  lemma JoinedEnds(ws: seq<string>)
    requires ws != [] && ws[|ws| - 1] != "" && ws[|ws| - 1][|ws[|ws| - 1]| - 1] != '-'
    ensures var u := JoinedWords(ws); u != "" && u[|u| - 1] != '-'
  {
  }

  lemma {:induction false} HyphenatedIsUnderway(s: string)
    ensures TrimStart(Hyphenated(s)) == Underway(Pieces(s))
  {
    if s != "" {
      var n := |s| - 1;
      var before, ps := Hyphenated(s[..n]), Pieces(s[..n]);
      HyphenatedIsUnderway(s[..n]);
      HyphenatedNear(s[..n]);
      StepUnderway(before, ps, s[n]);
    }
  }

  lemma OneMoreLetter(ps: seq<string>, c: char)
    requires ps != []
    ensures var m := |ps| - 1;
      Underway(ps[..m] + [ps[m] + [c]]) == Underway(ps) + if SlugChar(LowerChar(c)) then [LowerChar(c)] else ""
  {
    var m := |ps| - 1;
    LettersSnoc(ps[m], c);
    assert (ps[..m] + [ps[m] + [c]])[..m] == ps[..m];
  }

  lemma {:induction false} TrimStartEnds(s: string)
    ensures |TrimStart(s)| <= |s| && TrimStart(s) == s[|s| - |TrimStart(s)|..]
    ensures TrimStart(s) == "" && s != "" ==> s[|s| - 1] == '-'
  {
    if s != "" && s[0] == '-' {
      TrimStartEnds(s[1..]);
    }
  }

  /** One character more. */
  lemma StepUnderway(before: string, ps: seq<string>, c: char)
    requires ps != [] && TrimStart(before) == Underway(ps)
    ensures var m := |ps| - 1;
      var more := if c == ' ' || c == '_' || c == '-' then ps + [""] else ps[..m] + [ps[m] + [c]];
      var l := LowerChar(c);
      var after := if SlugChar(l) then before + [l]
        else if Separator(l) && !EndsWith(before, "-") then before + "-" else before;
      TrimStart(after) == Underway(more)
  {
    hide Underway, Letters, WordsOf, TrimStart, LowerChar;
    var l := LowerChar(c);
    SeparatorStays(c);
    OneMoreLetter(ps, c);
    UnderwayJoins(ps);
    if SlugChar(l) {
      LetterAdded(before, l);
    } else if Separator(l) {
      UnderwayEnds(ps);
      HyphenAdded(before);
    }
  }

  lemma SeparatorStays(c: char)
    ensures Separator(LowerChar(c)) <==> c == ' ' || c == '_' || c == '-'
    ensures SlugChar(LowerChar(c)) ==> !Separator(LowerChar(c))
  {
  }

  lemma LetterAdded(before: string, l: char)
    requires SlugChar(l)
    ensures TrimStart(before + [l]) == TrimStart(before) + [l]
  {
    TrimStartAppend(before, [l]);
    TrimStartOne(l);
    hide TrimStart;
  }

  lemma HyphenAdded(before: string)
    ensures var t := TrimStart(before);
      && TrimStart(before + "-") == (if t == "" then "" else t + "-")
      && (t != "" ==> (EndsWith(before, "-") <==> t[|t| - 1] == '-'))
  {
    TrimStartAppend(before, "-");
    TrimStartOne('-');
    TrimStartEnds(before);
    hide TrimStart;
    assert EndsWith(before, "-") <==> before != "" && before[|before| - 1] == '-';
  }

  lemma TrimStartOne(c: char)
    ensures TrimStart("-") == "" && (c != '-' ==> TrimStart([c]) == [c])
  {
  }

  /** A slug is the words of its text, in lower case, with one hyphen between any two. */
  lemma SlugIsWords(s: string)
    ensures Slug(s) == JoinedWords(WordsOf(Pieces(s)))
  {
    hide Underway, WordsOf, Letters, JoinedWords, Pieces, TrimStart, TrimEnd, Hyphenated;
    var ps := Pieces(s);
    var ws := WordsOf(ps);
    HyphenatedIsUnderway(s);
    UnderwayTail(ps);
    if ws != [] {
      WordsAreLetters(ps);
      JoinedEnds(ws);
      TrimEndOne(JoinedWords(ws));
    } else {
      NoWords();
    }
  }

  lemma NoWords()
    ensures JoinedWords([]) == "" && TrimEnd("") == ""
  {
  }

  lemma TrimEndOne(u: string)
    requires u != "" && u[|u| - 1] != '-'
    ensures TrimEnd(u) == u && TrimEnd(u + "-") == u
  {
    assert (u + "-")[..|u|] == u;
  }

  /** What is under way is the words, and a hyphen when the last piece has no letter yet. */
  lemma UnderwayTail(ps: seq<string>)
    requires ps != []
    ensures var ws := WordsOf(ps);
      if ws == [] then Underway(ps) == ""
      else Underway(ps) == JoinedWords(ws) || Underway(ps) == JoinedWords(ws) + "-"
  {
    UnderwayEnds(ps);
    UnderwayJoins(ps);
    hide Letters, WordsOf, JoinedWords;
  }

  function CanonicalProduct(raw: string): string {
    match ProductOverride(raw)
    case Some(canon) => canon
    case None => Slug(raw)
  }

  lemma OverrideKeys(raw: string)
    requires ProductOverride(raw).Some? && raw != "nginx"
    ensures raw != "" && IsUpper(raw[0])
  {
  }

  predicate AllLower(s: string) {
    s != "" && forall i :: 0 <= i < |s| ==> IsLower(s[i])
  }

  predicate NameAToM(name: string) {
    name in {"apache", "bgp", "bigbluebutton", "cacti", "cloudflare", "cloudfront", "gws", "iis",
             "litespeed", "mariadb", "mikrotik", "mobotix", "mysql"}
  }

  predicate NameNToZ(name: string) {
    name in {"nagios", "nextcloud", "nginx", "openssh", "pritunl", "sigplus", "sucuri", "wazuh", "xampp"}
  }

  predicate NameOfWords(name: string) {
    name in {"nginx-proxy-manager", "unifi-os"}
  }

  lemma OverrideNames(raw: string)
    requires ProductOverride(raw).Some?
    ensures var name := ProductOverride(raw).value;
      NameAToM(name) || NameNToZ(name) || NameOfWords(name)
  {
  }

  lemma LowerAToM(name: string)
    requires NameAToM(name)
    ensures AllLower(name)
  {
  }

  lemma LowerNToZ(name: string)
    requires NameNToZ(name)
    ensures AllLower(name)
  {
  }

  lemma SlugOfWords(name: string)
    requires NameOfWords(name)
    ensures IsSlug(name)
  {
  }

  lemma OverrideIsSlug(raw: string)
    requires ProductOverride(raw).Some?
    ensures IsSlug(ProductOverride(raw).value)
  {
    var name := ProductOverride(raw).value;
    OverrideNames(raw);
    hide ProductOverride, NameAToM, NameNToZ, NameOfWords;
    if NameAToM(name) {
      LowerAToM(name);
    } else if NameNToZ(name) {
      LowerNToZ(name);
    } else {
      SlugOfWords(name);
    }
  }

  /** Canonical products are slugs, and canonical. */
  lemma CanonicalProductFixed(raw: string)
    ensures IsSlug(CanonicalProduct(raw))
    ensures CanonicalProduct(CanonicalProduct(raw)) == CanonicalProduct(raw)
  {
    var p := CanonicalProduct(raw);
    if ProductOverride(raw).Some? {
      OverrideIsSlug(raw);
    } else {
      SlugForm(raw);
    }
    if ProductOverride(p).Some? && p != "nginx" {
      OverrideKeys(p);
      assert false;
    }
    SlugFixed(p);
  }

  // ─── Tags ───

  predicate AllowedAToC(tag: string) {
    tag in {"accounting", "analytics", "api-gateway", "billing", "camera", "cdn", "cloud", "cms",
            "conferencing", "control-panel"}
  }

  predicate AllowedDToF(tag: string) {
    tag in {"dashboard", "database", "development", "discovery", "email", "embedded", "erp",
            "file-transfer", "fleet-management", "framework"}
  }

  predicate AllowedGToI(tag: string) {
    tag in {"gaming", "government", "gps", "helpdesk", "home-assistant", "hosting", "inverter", "iot", "isp"}
  }

  predicate AllowedJToR(tag: string) {
    tag in {"javascript", "mail", "media", "mesh", "monitoring", "networking", "php", "pki", "power",
            "proxy", "remote-access", "reverse-proxy", "router", "rss"}
  }

  predicate AllowedSToZ(tag: string) {
    tag in {"security", "self-hosted", "smart-home", "solar", "storage", "streaming", "surveillance",
            "ticketing", "tracking", "voip", "vpn", "waf", "web"}
  }

  /** The allowlist of category tags. */
  predicate Allowed(tag: string) {
    AllowedAToC(tag) || AllowedDToF(tag) || AllowedGToI(tag) || AllowedJToR(tag) || AllowedSToZ(tag)
  }

  datatype Alias = To(tag: string) | Dropped | Itself

  function AliasOf(lower: string): Alias {
    match lower
    case "email" => To("mail")
    case "webmail" => To("mail")
    case "routing" => To("networking")
    case "routeros" => To("networking")
    case "logger" => To("power")
    case "bigbluebutton" => To("conferencing")
    case "greenlight" => To("conferencing")
    case "minecraft" => To("gaming")
    case "aws" => To("cloud")
    case "amazon" => To("cloud")
    case "video" => To("media")
    case "tracking" => To("tracking")
    case "gps" => To("tracking")
    case "fleet-management" => To("tracking")
    case "nginx" => Dropped
    case "openresty" => Dropped
    case "nvr" => Dropped
    case "dvr" => Dropped
    case "ubiquiti" => Dropped
    case "unifi" => Dropped
    case "mikrotik" => Dropped
    case "dropbear" => Dropped
    case "cisco" => Dropped
    case "btest" => Dropped
    case _ => Itself
  }

  predicate HasControl(s: string) {
    exists i :: 0 <= i < |s| && (s[i] < ' ' || s[i] as int == 127)
  }

  function CanonicalTag(fold: Folding, raw: string): Option<string> {
    var lower := fold(raw);
    if StartsWith(lower, "device:") || StartsWith(lower, "firmware:") then None
    else if HasControl(lower) then None
    else match AliasOf(lower)
      case To(alias) => if Allowed(alias) then Some(alias) else None
      case Dropped => None
      case Itself => if Allowed(lower) then Some(lower) else None
  }

  predicate PlainChar(c: char) { IsLower(c) || c == '-' }

  predicate Plain(s: string) {
    forall i :: 0 <= i < |s| ==> PlainChar(s[i])
  }

  lemma PlainAToC(tag: string)
    requires AllowedAToC(tag)
    ensures Plain(tag)
  {
  }

  lemma PlainDToF(tag: string)
    requires AllowedDToF(tag)
    ensures Plain(tag)
  {
  }

  lemma PlainGToI(tag: string)
    requires AllowedGToI(tag)
    ensures Plain(tag)
  {
  }

  lemma PlainJToR(tag: string)
    requires AllowedJToR(tag)
    ensures Plain(tag)
  {
  }

  lemma PlainSToZ(tag: string)
    requires AllowedSToZ(tag)
    ensures Plain(tag)
  {
  }

  lemma AllowedPlain(tag: string)
    requires Allowed(tag)
    ensures Plain(tag)
  {
    hide AllowedAToC, AllowedDToF, AllowedGToI, AllowedJToR, AllowedSToZ, Plain;
    if AllowedAToC(tag) {
      PlainAToC(tag);
    } else if AllowedDToF(tag) {
      PlainDToF(tag);
    } else if AllowedGToI(tag) {
      PlainGToI(tag);
    } else if AllowedJToR(tag) {
      PlainJToR(tag);
    } else {
      PlainSToZ(tag);
    }
  }

  lemma PlainPrefix(tag: string, prefix: string)
    requires Plain(tag) && StartsWith(tag, prefix)
    ensures Plain(prefix)
  {
    forall i | 0 <= i < |prefix| ensures PlainChar(prefix[i]) {
      assert tag[i] == prefix[i];
    }
  }

  lemma GarbageNotPlain()
    ensures !Plain("device:") && !Plain("firmware:")
  {
    assert !PlainChar("device:"[6]);
    assert !PlainChar("firmware:"[8]);
  }

  lemma PlainLower(tag: string)
    requires Plain(tag)
    ensures IsAscii(tag) && Lower(tag) == tag && !HasControl(tag)
  {
    assert forall i :: 0 <= i < |tag| ==> PlainChar(tag[i]);
  }

  lemma PlainFolds(fold: Folding, tag: string)
    requires Plain(tag)
    ensures fold(tag) == tag && !HasControl(tag)
    ensures !StartsWith(tag, "device:") && !StartsWith(tag, "firmware:")
  {
    PlainLower(tag);
    hide StartsWith, Plain, Lower, IsAscii;
    assert fold(tag) == Lower(tag);
    GarbageNotPlain();
    if StartsWith(tag, "device:") {
      PlainPrefix(tag, "device:");
    }
    if StartsWith(tag, "firmware:") {
      PlainPrefix(tag, "firmware:");
    }
  }

  /** A canonical tag is on the allowlist and stays as it is. */
  lemma CanonicalTagFixed(fold: Folding, raw: string)
    requires CanonicalTag(fold, raw).Some?
    ensures var tag := CanonicalTag(fold, raw).value;
      Allowed(tag) && CanonicalTag(fold, tag) == Some(tag)
  {
    hide Allowed, AliasOf, HasControl, StartsWith;
    var lower, tag := fold(raw), CanonicalTag(fold, raw).value;
    if AliasOf(lower).To? {
      AliasSettles(lower);
    }
    AllowedPlain(tag);
    PlainFolds(fold, tag);
  }

  lemma AliasSettles(lower: string)
    requires AliasOf(lower).To?
    ensures AliasOf(AliasOf(lower).tag) in {Itself, To(AliasOf(lower).tag)}
  {
  }

  /** The texts that are taken for another tag, by that tag. */
  function AliasesFor(tag: string): set<string> {
    match tag
    case "mail" => {"email", "webmail"}
    case "networking" => {"routing", "routeros"}
    case "power" => {"logger"}
    case "conferencing" => {"bigbluebutton", "greenlight"}
    case "gaming" => {"minecraft"}
    case "cloud" => {"aws", "amazon"}
    case "media" => {"video"}
    case "tracking" => {"gps", "fleet-management"}
    case _ => {}
  }

  lemma AliasIsFor(lower: string, tag: string)
    ensures lower in AliasesFor(tag) ==> AliasOf(lower) == To(tag) && Allowed(tag)
    ensures AliasOf(lower) == To(tag) ==> lower in AliasesFor(tag) || (lower == "tracking" && tag == "tracking")
  {
  }

  predicate AliasAToM(lower: string) {
    lower in {"amazon", "aws", "bigbluebutton", "email", "fleet-management", "gps", "greenlight", "logger", "minecraft"}
  }

  predicate AliasNToZ(lower: string) {
    lower in {"routeros", "routing", "tracking", "video", "webmail"}
  }

  lemma AliasNames(lower: string)
    requires AliasOf(lower).To?
    ensures AliasAToM(lower) || AliasNToZ(lower)
  {
  }

  lemma AliasPlainAToM(lower: string)
    requires AliasAToM(lower)
    ensures Plain(lower)
  {
  }

  lemma AliasPlainNToZ(lower: string)
    requires AliasNToZ(lower)
    ensures Plain(lower)
  {
  }

  lemma AliasAllowedAToM(lower: string)
    requires AliasAToM(lower) && Allowed(lower)
    ensures lower in {"email", "gps", "fleet-management"}
  {
  }

  lemma AliasAllowedNToZ(lower: string)
    requires AliasNToZ(lower) && Allowed(lower)
    ensures lower == "tracking"
  {
  }

  lemma DroppedNotAllowed(lower: string)
    requires AliasOf(lower).Dropped?
    ensures !Allowed(lower)
  {
  }

  lemma AliasFacts(lower: string)
    requires AliasOf(lower).To?
    ensures Plain(lower) && (Allowed(lower) ==> lower in {"email", "gps", "fleet-management", "tracking"})
  {
    AliasNames(lower);
    hide AliasOf, Allowed, AliasAToM, AliasNToZ, Plain;
    if AliasAToM(lower) {
      AliasPlainAToM(lower);
      if Allowed(lower) {
        AliasAllowedAToM(lower);
      }
    } else {
      AliasPlainNToZ(lower);
      if Allowed(lower) {
        AliasAllowedNToZ(lower);
      }
    }
  }

  /** The tag a folded text gives, the needless checks left out. */
  lemma TagGiven(fold: Folding, raw: string)
    ensures var lower := fold(raw);
      CanonicalTag(fold, raw) ==
        match AliasOf(lower)
        case To(alias) => if Allowed(alias) then Some(alias) else None
        case Dropped => None
        case Itself => if Allowed(lower) then Some(lower) else None
  {
    hide AliasOf, Allowed, Plain, HasControl, StartsWith;
    var lower := fold(raw);
    if AliasOf(lower).To? {
      AliasFacts(lower);
      PlainPasses(lower);
    } else if Allowed(lower) {
      AllowedPlain(lower);
      PlainPasses(lower);
    }
  }

  /**
   What gives a canonical tag: the tag itself in any case, if it is allowed and no
   alias, or one of its aliases. The checks for device names and control
   characters turn nothing away that would pass otherwise.
   */
  lemma TagSources(fold: Folding, raw: string, tag: string)
    ensures CanonicalTag(fold, raw) == Some(tag) <==>
      || fold(raw) in AliasesFor(tag)
      || (fold(raw) == tag && Allowed(tag) && tag !in {"email", "gps", "fleet-management"})
  {
    hide CanonicalTag, AliasOf, Allowed, AliasesFor;
    var lower := fold(raw);
    TagGiven(fold, raw);
    AliasIsFor(lower, tag);
    EmailAliases();
    if AliasOf(lower).To? {
      AliasFacts(lower);
    } else if AliasOf(lower).Dropped? {
      DroppedNotAllowed(lower);
    }
  }

  lemma PlainPasses(lower: string)
    requires Plain(lower)
    ensures !HasControl(lower) && !StartsWith(lower, "device:") && !StartsWith(lower, "firmware:")
  {
    PlainLower(lower);
    GarbageNotPlain();
    if StartsWith(lower, "device:") {
      PlainPrefix(lower, "device:");
    }
    if StartsWith(lower, "firmware:") {
      PlainPrefix(lower, "firmware:");
    }
  }

  lemma EmailAliases()
    ensures AliasOf("email") == To("mail") && AliasOf("gps") == AliasOf("fleet-management") == To("tracking")
    ensures AliasOf("tracking") == To("tracking") && Allowed("tracking")
  {
  }

  /** The canonical tags of a list, in its order. */
  function CanonicalTags(fold: Folding, tags: seq<string>): seq<string> {
    if tags == [] then []
    else
      var n := |tags| - 1;
      var last := CanonicalTag(fold, tags[n]);
      CanonicalTags(fold, tags[..n]) + if last.Some? then [last.value] else []
  }

  function CategoryTags(kind: string): seq<string> {
    match KindCategory(kind)
    case Some(category) => [category]
    case None => []
  }

  function NormalTags(fold: Folding, kind: string, tags: seq<string>): seq<string> {
    SortedSet(CategoryTags(CanonicalKind(kind)) + CanonicalTags(fold, tags))
  }

  lemma SortedSetSnoc(xs: seq<string>, x: string)
    ensures SortedSet(xs + [x]) == Insert(x, SortedSet(xs))
  {
    assert (xs + [x])[..|xs|] == xs;
  }

  lemma TagsStep(fold: Folding, base: seq<string>, raw: seq<string>, i: nat)
    requires i < |raw|
    ensures var tag := CanonicalTag(fold, raw[i]);
      var before := SortedSet(base + CanonicalTags(fold, raw[..i]));
      SortedSet(base + CanonicalTags(fold, raw[..i + 1])) ==
        if tag.Some? then Insert(tag.value, before) else before
  {
    hide CanonicalTag, CanonicalTags, SortedSet, Insert;
    var tag := CanonicalTag(fold, raw[i]);
    CanonicalTagsStep(fold, raw, i);
    if tag.Some? {
      var so := CanonicalTags(fold, raw[..i]);
      SortedSetSnoc(base + so, tag.value);
      assert base + (so + [tag.value]) == (base + so) + [tag.value];
    }
  }

  lemma CanonicalTagsStep(fold: Folding, raw: seq<string>, i: nat)
    requires i < |raw|
    ensures var tag := CanonicalTag(fold, raw[i]);
      CanonicalTags(fold, raw[..i + 1]) ==
        if tag.Some? then CanonicalTags(fold, raw[..i]) + [tag.value] else CanonicalTags(fold, raw[..i])
  {
    hide CanonicalTag;
    assert raw[..i + 1][..i] == raw[..i];
  }

  lemma TagsStart(fold: Folding, kind: string, raw: seq<string>)
    ensures SortedSet(CategoryTags(kind) + CanonicalTags(fold, raw[..0])) ==
      if KindCategory(kind).Some? then Insert(KindCategory(kind).value, []) else []
  {
    hide KindCategory, Insert;
    var base := CategoryTags(kind);
    assert base + CanonicalTags(fold, raw[..0]) == base;
    if base != [] {
      SortedSetSnoc([], base[0]);
      assert [] + [base[0]] == base;
      assert SortedSet([]) == [];
    }
  }

  method NormalizeTags(fold: Folding, data: Record)
    modifies data`tags
    ensures data.tags == NormalTags(fold, data.kind, old(data.tags))
  {
    hide CanonicalTag, CanonicalTags, KindCategory, CanonicalKind, Insert, SortedSet;
    var kind := CanonicalKind(data.kind);
    var tags: seq<string> := [];
    var category := KindCategory(kind);
    if category.Some? {
      tags := Insert(category.value, tags);
    }
    var raw := data.tags;
    TagsStart(fold, kind, raw);
    for i := 0 to |raw|
      invariant tags == SortedSet(CategoryTags(kind) + CanonicalTags(fold, raw[..i]))
    {
      TagsStep(fold, CategoryTags(kind), raw, i);
      var canonical := CanonicalTag(fold, raw[i]);
      if canonical.Some? {
        tags := Insert(canonical.value, tags);
      }
    }
    assert raw[..|raw|] == raw;
    data.tags := tags;
  }

  /** A tag of the list says `tag`. */
  predicate Says(fold: Folding, tags: seq<string>, tag: string) {
    exists raw :: raw in tags && CanonicalTag(fold, raw) == Some(tag)
  }

  lemma {:induction false} CanonicalTagsSay(fold: Folding, tags: seq<string>, tag: string)
    ensures tag in CanonicalTags(fold, tags) <==> Says(fold, tags, tag)
  {
    hide CanonicalTag, Says;
    if tags != [] {
      CanonicalTagsSay(fold, tags[..|tags| - 1], tag);
      SaysSnoc(fold, tags, tag);
    } else {
      SaysNothing(fold, tag);
    }
  }

  lemma SaysNothing(fold: Folding, tag: string)
    ensures !Says(fold, [], tag)
  {
  }

  lemma SaysSnoc(fold: Folding, tags: seq<string>, tag: string)
    requires tags != []
    ensures var n := |tags| - 1;
      Says(fold, tags, tag) <==> Says(fold, tags[..n], tag) || CanonicalTag(fold, tags[n]) == Some(tag)
  {
    hide CanonicalTag;
    var n := |tags| - 1;
    assert tags == tags[..n] + [tags[n]];
    assert forall raw :: raw in tags <==> raw in tags[..n] || raw == tags[n];
  }

  /** What the tags of a normalised record are: sorted, once each, and exactly the category and what the raw tags say. */
  lemma NormalTagsMean(fold: Folding, kind: string, tags: seq<string>, tag: string)
    ensures StrictlySorted(NormalTags(fold, kind, tags))
    ensures tag in NormalTags(fold, kind, tags) <==>
      KindCategory(CanonicalKind(kind)) == Some(tag) || Says(fold, tags, tag)
  {
    hide CanonicalTag, KindCategory;
    SortedSetIsSorted(CategoryTags(CanonicalKind(kind)) + CanonicalTags(fold, tags));
    CanonicalTagsSay(fold, tags, tag);
  }

  /** Only the set of raw tags matters. */
  lemma TagsAsSet(fold: Folding, kind: string, a: seq<string>, b: seq<string>)
    requires forall t :: t in a <==> t in b
    ensures NormalTags(fold, kind, a) == NormalTags(fold, kind, b)
  {
    hide NormalTags, KindCategory, CanonicalKind;
    forall tag ensures tag in NormalTags(fold, kind, a) <==> tag in NormalTags(fold, kind, b) {
      NormalTagsMean(fold, kind, a, tag);
      NormalTagsMean(fold, kind, b, tag);
      SaysAsSet(fold, a, b, tag);
      SaysAsSet(fold, b, a, tag);
    }
    NormalTagsMean(fold, kind, a, "");
    NormalTagsMean(fold, kind, b, "");
    SortedUnique(NormalTags(fold, kind, a), NormalTags(fold, kind, b));
  }

  lemma SaysAsSet(fold: Folding, a: seq<string>, b: seq<string>, tag: string)
    requires forall t :: t in a ==> t in b
    ensures Says(fold, a, tag) ==> Says(fold, b, tag)
  {
    hide CanonicalTag;
  }

  // ─── The whole record ───

  function Normalized(fold: Folding, d: Service): Service {
    d.(kind := CanonicalKind(d.kind),
       product := if d.product.Some? then Some(CanonicalProduct(d.product.value)) else None,
       tags := NormalTags(fold, d.kind, d.tags))
  }

  method NormalizeProduct(p: string) returns (canon: string)
    ensures canon == CanonicalProduct(p)
  {
    hide ProductOverride, Slug;
    var o := ProductOverride(p);
    if o.Some? {
      canon := o.value;
    } else {
      canon := Slugify(p);
    }
  }

  /** Two kinds are taken for another; the others stay. */
  lemma KindsMerged(kind: string)
    ensures CanonicalKind(kind) == if kind in {"https", "camera"} then "http" else kind
  {
  }

  method NormalizeService(fold: Folding, data: Record)
    modifies data
    ensures data.Data() == Normalized(fold, old(data.Data()))
  {
    SameNormalTags(fold, data.kind, data.tags);
    hide CanonicalKind, NormalTags, CanonicalProduct;
    data.kind := CanonicalKind(data.kind);
    if data.product.Some? {
      var canon := NormalizeProduct(data.product.value);
      data.product := Some(canon);
    }
    NormalizeTags(fold, data);
  }

  lemma SameNormalTags(fold: Folding, kind: string, tags: seq<string>)
    ensures NormalTags(fold, CanonicalKind(kind), tags) == NormalTags(fold, kind, tags)
  {
    CanonicalKindFixed(kind);
  }

  lemma CanonicalKindFixed(kind: string)
    ensures CanonicalKind(CanonicalKind(kind)) == CanonicalKind(kind)
  {
  }

  lemma CategoryCanonical(fold: Folding, kind: string)
    requires KindCategory(kind).Some?
    ensures CanonicalTag(fold, KindCategory(kind).value) == KindCategory(kind)
  {
    var tag := KindCategory(kind).value;
    CategoryAllowed(kind);
    hide KindCategory, Allowed, HasControl, StartsWith;
    AllowedPlain(tag);
    PlainFolds(fold, tag);
  }

  lemma CategoryAllowed(kind: string)
    requires KindCategory(kind).Some?
    ensures Allowed(KindCategory(kind).value) && AliasOf(KindCategory(kind).value) == Itself
  {
    CategoryNames(kind);
    hide KindCategory;
  }

  lemma CategoryNames(kind: string)
    requires KindCategory(kind).Some?
    ensures KindCategory(kind).value in {"web", "remote-access", "file-transfer", "mail", "database", "iot",
                                         "vpn", "voip", "networking", "camera"}
  {
  }

  predicate NormalTagList(fold: Folding, kind: string, tags: seq<string>) {
    && StrictlySorted(tags)
    && (forall i :: 0 <= i < |tags| ==> Allowed(tags[i]) && CanonicalTag(fold, tags[i]) == Some(tags[i]))
    && (KindCategory(kind).Some? ==> KindCategory(kind).value in tags)
  }

  /** Canonical kind, canonical product, and the tags sorted, allowed, canonical and with the kind's category. */
  predicate NormalForm(fold: Folding, d: Service) {
    && CanonicalKind(d.kind) == d.kind
    && (d.product.Some? ==> CanonicalProduct(d.product.value) == d.product.value)
    && NormalTagList(fold, d.kind, d.tags)
  }

  lemma NormalTagsNormal(fold: Folding, kind: string, tags: seq<string>)
    ensures NormalTagList(fold, CanonicalKind(kind), NormalTags(fold, kind, tags))
  {
    var r := NormalTags(fold, kind, tags);
    var k := CanonicalKind(kind);
    hide NormalTags, KindCategory, CanonicalKind, Allowed, CanonicalTag;
    NormalTagsMean(fold, kind, tags, "");
    forall i | 0 <= i < |r| ensures Allowed(r[i]) && CanonicalTag(fold, r[i]) == Some(r[i]) {
      NormalTagsMean(fold, kind, tags, r[i]);
      if Says(fold, tags, r[i]) {
        var raw :| raw in tags && CanonicalTag(fold, raw) == Some(r[i]);
        CanonicalTagFixed(fold, raw);
      } else {
        CategoryCanonical(fold, k);
        CanonicalTagFixed(fold, r[i]);
      }
    }
    if KindCategory(k).Some? {
      NormalTagsMean(fold, kind, tags, KindCategory(k).value);
    }
  }

  lemma NormalTagsFixed(fold: Folding, kind: string, tags: seq<string>)
    requires CanonicalKind(kind) == kind && NormalTagList(fold, kind, tags)
    ensures NormalTags(fold, kind, tags) == tags
  {
    var r := NormalTags(fold, kind, tags);
    hide NormalTags, KindCategory, CanonicalKind, Allowed, CanonicalTag;
    NormalTagsMean(fold, kind, tags, "");
    forall tag ensures tag in r <==> tag in tags {
      NormalTagsMean(fold, kind, tags, tag);
      if tag in tags {
        var i :| 0 <= i < |tags| && tags[i] == tag;
        assert CanonicalTag(fold, tags[i]) == Some(tag);
      }
    }
    SortedUnique(r, tags);
  }

  /** Normalising gives a normal form, and the normal forms are exactly the records it leaves alone. */
  lemma NormalizedForm(fold: Folding, d: Service)
    ensures NormalForm(fold, Normalized(fold, d))
    ensures Normalized(fold, d) == d <==> NormalForm(fold, d)
  {
    NormalTagsNormal(fold, d.kind, d.tags);
    CanonicalKindFixed(d.kind);
    hide CanonicalKind, NormalTagList, NormalTags, CanonicalProduct;
    if d.product.Some? {
      CanonicalProductFixed(d.product.value);
    }
    if NormalForm(fold, d) {
      NormalTagsFixed(fold, d.kind, d.tags);
    }
  }

  /** Normalising twice is normalising once. */
  lemma NormalizedTwice(fold: Folding, d: Service)
    ensures Normalized(fold, Normalized(fold, d)) == Normalized(fold, d)
  {
    NormalizedForm(fold, d);
    NormalizedForm(fold, Normalized(fold, d));
  }
}
