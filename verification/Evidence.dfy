/** The flat evidence a record is matched on (crates/scanerr-fingerprint/src/evidence.rs). */
module Evidence {
  import opened Text
  import opened Services

  type Facts = map<string, seq<string>>

  /** A named piece of evidence. */
  datatype Entry = Entry(key: string, text: string)

  function Values(facts: Facts, key: string): seq<string> {
    if key in facts then facts[key] else []
  }

  function Push(facts: Facts, key: string, text: string): Facts {
    facts[key := Values(facts, key) + [text]]
  }

  function PushAll(facts: Facts, es: seq<Entry>): Facts {
    if es == [] then facts
    else
      var n := |es| - 1;
      Push(PushAll(facts, es[..n]), es[n].key, es[n].text)
  }

  lemma {:induction false} PushAllAppend(facts: Facts, a: seq<Entry>, b: seq<Entry>)
    ensures PushAll(facts, a + b) == PushAll(PushAll(facts, a), b)
  {
    if b == [] {
      assert a + b == a;
    } else {
      var n := |b| - 1;
      assert (a + b)[..|a + b| - 1] == a + b[..n];
      PushAllAppend(facts, a, b[..n]);
    }
  }

  /** The texts of the entries with a key, in order. */
  function TextsOf(es: seq<Entry>, key: string): seq<string> {
    if es == [] then []
    else
      var n := |es| - 1;
      TextsOf(es[..n], key) + if es[n].key == key then [es[n].text] else []
  }

  /** A matcher sees exactly the entries of its key, in the order they were pushed. */
  lemma {:induction false} ValuesArePushed(es: seq<Entry>, key: string)
    ensures Values(PushAll(map[], es), key) == TextsOf(es, key)
  {
    if es != [] {
      ValuesArePushed(es[..|es| - 1], key);
    }
  }

  lemma TextsOfAppend(a: seq<Entry>, b: seq<Entry>, key: string)
    ensures TextsOf(a + b, key) == TextsOf(a, key) + TextsOf(b, key)
    decreases |b|
  {
    if b == [] {
      assert a + b == a;
    } else {
      var n := |b| - 1;
      assert (a + b)[..|a + b| - 1] == a + b[..n];
      TextsOfAppend(a, b[..n], key);
      var more := if b[n].key == key then [b[n].text] else [];
      assert TextsOf(a, key) + (TextsOf(b[..n], key) + more) == TextsOf(a, key) + TextsOf(b[..n], key) + more;
    }
  }

  // ─── What each part of a record gives ───

  function Maybe(key: string, text: Option<string>): seq<Entry> {
    match text
    case Some(t) => [Entry(key, t)]
    case None => []
  }

  function Each(key: string, texts: seq<string>): seq<Entry> {
    if texts == [] then []
    else
      var n := |texts| - 1;
      Each(key, texts[..n]) + [Entry(key, texts[n])]
  }

  function Strings(items: seq<Option<string>>): seq<string> {
    if items == [] then []
    else
      var n := |items| - 1;
      Strings(items[..n]) + if items[n].Some? then [items[n].value] else []
  }

  function HeaderTexts(v: HeaderValue): seq<string> {
    match v
    case Single(text) => [text]
    case Several(items) => Strings(items)
    case Neither => []
  }

  function HeaderEntries(fold: Folding, headers: seq<Header>): seq<Entry> {
    if headers == [] then []
    else
      var n := |headers| - 1;
      HeaderEntries(fold, headers[..n])
      + Each("http.header." + fold(headers[n].name), HeaderTexts(headers[n].value))
  }

  function Shown(n: Option<nat>): Option<string> {
    if n.Some? then Some(Show(n.value)) else None
  }

  function ShownInt(i: Option<int>): Option<string> {
    if i.Some? then Some(ShowInt(i.value)) else None
  }

  function ShownBool(b: Option<bool>): Option<string> {
    if b.Some? then Some(ShowBool(b.value)) else None
  }

  function Listed(texts: Option<seq<string>>): seq<string> {
    if texts.Some? then texts.value else []
  }

  function CommonEntries(d: Service): seq<Entry> {
    Maybe("port", Shown(d.port))
    + Maybe("product", d.product)
    + Maybe("version", d.version)
    + Maybe("banner", d.banner)
    + Each("tags", d.tags)
  }

  function HttpEntries(fold: Folding, http: Http): seq<Entry> {
    [Entry("http.status", Show(http.status))]
    + Maybe("http.title", http.title)
    + Maybe("http.body", http.body)
    + Maybe("http.server", http.server)
    + Maybe("http.host", http.host)
    + Maybe("http.rdns", http.rdns)
    + Maybe("http.waf", http.waf)
    + Maybe("http.favicon_hash", ShownInt(http.faviconHash))
    + Maybe("http.html_hash", ShownInt(http.htmlHash))
    + Maybe("http.robots", http.robots)
    + Maybe("http.securitytxt", http.securitytxt)
    + Each("http.tags", http.tags)
    + HeaderEntries(fold, http.headers)
  }

  function SslEntries(ssl: Ssl): seq<Entry> {
    Maybe("ssl.subject_cn", ssl.subjectCn)
    + Maybe("ssl.issuer_cn", ssl.issuerCn)
    + Maybe("ssl.self_signed", if ssl.selfSigned then Some("true") else None)
  }

  function SshEntries(ssh: Ssh): seq<Entry> {
    [Entry("ssh.raw", ssh.raw)]
    + Maybe("ssh.key_type", ssh.keyType)
    + Maybe("ssh.fingerprint", ssh.fingerprint)
    + Maybe("ssh.product", ssh.product)
    + Maybe("ssh.version", ssh.version)
  }

  function FtpEntries(ftp: Ftp): seq<Entry> {
    Maybe("ftp.system", ftp.system)
    + Maybe("ftp.anonymous_listing", ftp.anonymousListing)
    + Each("ftp.features", Listed(ftp.features))
    + Each("ftp.commands", Listed(ftp.commands))
  }

  function SmtpEntries(smtp: Smtp): seq<Entry> {
    Maybe("smtp.starttls", ShownBool(smtp.starttls)) + Each("smtp.ehlo", Listed(smtp.ehlo))
  }

  function MqttEntries(mqtt: Mqtt): seq<Entry> {
    Maybe("mqtt.version", mqtt.version)
    + Maybe("mqtt.return_code", Shown(mqtt.returnCode))
    + Each("mqtt.subscriptions", mqtt.subscriptions)
  }

  function HttpPart(fold: Folding, http: Option<Http>): seq<Entry> {
    match http case Some(h) => HttpEntries(fold, h) case None => []
  }

  function SslPart(ssl: Option<Ssl>): seq<Entry> {
    match ssl case Some(x) => SslEntries(x) case None => []
  }

  function SshPart(ssh: Option<Ssh>): seq<Entry> {
    match ssh case Some(x) => SshEntries(x) case None => []
  }

  function FtpPart(ftp: Option<Ftp>): seq<Entry> {
    match ftp case Some(x) => FtpEntries(x) case None => []
  }

  function SmtpPart(smtp: Option<Smtp>): seq<Entry> {
    match smtp case Some(x) => SmtpEntries(x) case None => []
  }

  function MqttPart(mqtt: Option<Mqtt>): seq<Entry> {
    match mqtt case Some(x) => MqttEntries(x) case None => []
  }

  /** All but the kind, which comes first. */
  function OtherEntries(fold: Folding, d: Service): seq<Entry> {
    CommonEntries(d)
    + HttpPart(fold, d.http)
    + SslPart(d.ssl)
    + SshPart(d.ssh)
    + FtpPart(d.ftp)
    + SmtpPart(d.smtp)
    + MqttPart(d.mqtt)
  }

  function Entries(fold: Folding, d: Service): seq<Entry> {
    [Entry("kind", d.kind)] + OtherEntries(fold, d)
  }

  function FactsOf(fold: Folding, d: Service): Facts {
    PushAll(map[], Entries(fold, d))
  }

  // ─── Building it ───

  /** `es` are the entries pushed onto `base` so far. */
  method PushMaybe(facts: Facts, ghost base: Facts, ghost es: seq<Entry>, key: string, text: Option<string>)
    returns (r: Facts, ghost all: seq<Entry>)
    requires facts == PushAll(base, es)
    ensures all == es + Maybe(key, text) && r == PushAll(base, all)
  {
    r, all := facts, es + Maybe(key, text);
    PushAllAppend(base, es, Maybe(key, text));
    if text.Some? {
      r := Push(r, key, text.value);
      assert Maybe(key, text)[..0] == [];
    }
  }

  lemma PushAllSnoc(facts: Facts, es: seq<Entry>, e: Entry)
    ensures PushAll(facts, es + [e]) == Push(PushAll(facts, es), e.key, e.text)
  {
    assert (es + [e])[..|es|] == es;
  }

  method PushEach(facts: Facts, key: string, texts: seq<string>) returns (r: Facts)
    ensures r == PushAll(facts, Each(key, texts))
  {
    r := facts;
    for i := 0 to |texts|
      invariant r == PushAll(facts, Each(key, texts[..i]))
    {
      assert texts[..i + 1][..i] == texts[..i];
      PushAllSnoc(facts, Each(key, texts[..i]), Entry(key, texts[i]));
      r := Push(r, key, texts[i]);
    }
    assert texts[..|texts|] == texts;
  }

  lemma StringsStep(key: string, items: seq<Option<string>>, i: nat)
    requires i < |items|
    ensures Each(key, Strings(items[..i + 1])) ==
      if items[i].None? then Each(key, Strings(items[..i]))
      else Each(key, Strings(items[..i])) + [Entry(key, items[i].value)]
  {
    assert items[..i + 1][..i] == items[..i];
    var so := Strings(items[..i]);
    assert so + [] == so;
    if items[i].Some? {
      assert (so + [items[i].value])[..|so|] == so;
    }
  }

  /** Items of a list that are no strings are passed over. */
  method PushHeader(facts: Facts, key: string, value: HeaderValue) returns (r: Facts)
    ensures r == PushAll(facts, Each(key, HeaderTexts(value)))
  {
    r := facts;
    match value {
      case Single(text) =>
        r := PushEach(r, key, [text]);
      case Several(items) =>
        for i := 0 to |items|
          invariant r == PushAll(facts, Each(key, Strings(items[..i])))
        {
          StringsStep(key, items, i);
          if items[i].Some? {
            PushAllSnoc(facts, Each(key, Strings(items[..i])), Entry(key, items[i].value));
            r := Push(r, key, items[i].value);
          }
        }
        assert items[..|items|] == items;
      case Neither =>
    }
  }

  method PushHeaders(fold: Folding, facts: Facts, headers: seq<Header>) returns (r: Facts)
    ensures r == PushAll(facts, HeaderEntries(fold, headers))
  {
    r := facts;
    for i := 0 to |headers|
      invariant r == PushAll(facts, HeaderEntries(fold, headers[..i]))
    {
      hide PushAll, Each, HeaderTexts;
      assert headers[..i + 1][..i] == headers[..i];
      var key := "http.header." + fold(headers[i].name);
      PushAllAppend(facts, HeaderEntries(fold, headers[..i]), Each(key, HeaderTexts(headers[i].value)));
      r := PushHeader(r, key, headers[i].value);
    }
    assert headers[..|headers|] == headers;
  }

  lemma PushOne(facts: Facts, e: Entry)
    ensures PushAll(facts, [e]) == Push(facts, e.key, e.text)
  {
    assert [e][..0] == [];
  }

  method PushCommon(facts: Facts, d: Service) returns (r: Facts)
    ensures r == PushAll(facts, CommonEntries(d))
  {
    PushNone(facts);
    hide PushAll, Maybe, Each;
    r := facts;
    ghost var es := [];
    r, es := PushMaybe(r, facts, es, "port", Shown(d.port));
    assert es == Maybe("port", Shown(d.port));
    r, es := PushMaybe(r, facts, es, "product", d.product);
    r, es := PushMaybe(r, facts, es, "version", d.version);
    r, es := PushMaybe(r, facts, es, "banner", d.banner);
    PushAllAppend(facts, es, Each("tags", d.tags));
    r := PushEach(r, "tags", d.tags);
  }

  lemma PushNone(facts: Facts)
    ensures PushAll(facts, []) == facts
  {
  }

  method PushHttp(fold: Folding, facts: Facts, http: Http) returns (r: Facts)
    ensures r == PushAll(facts, HttpEntries(fold, http))
  {
    var status := Show(http.status);
    PushOne(facts, Entry("http.status", status));
    hide PushAll, Maybe, Each, HeaderEntries, Show;
    r := Push(facts, "http.status", status);
    ghost var es := [Entry("http.status", status)];
    r, es := PushMaybe(r, facts, es, "http.title", http.title);
    r, es := PushMaybe(r, facts, es, "http.body", http.body);
    r, es := PushMaybe(r, facts, es, "http.server", http.server);
    r, es := PushMaybe(r, facts, es, "http.host", http.host);
    r, es := PushMaybe(r, facts, es, "http.rdns", http.rdns);
    r, es := PushMaybe(r, facts, es, "http.waf", http.waf);
    r, es := PushMaybe(r, facts, es, "http.favicon_hash", ShownInt(http.faviconHash));
    r, es := PushMaybe(r, facts, es, "http.html_hash", ShownInt(http.htmlHash));
    r, es := PushMaybe(r, facts, es, "http.robots", http.robots);
    r, es := PushMaybe(r, facts, es, "http.securitytxt", http.securitytxt);
    PushAllAppend(facts, es, Each("http.tags", http.tags));
    r := PushEach(r, "http.tags", http.tags);
    PushAllAppend(facts, es + Each("http.tags", http.tags), HeaderEntries(fold, http.headers));
    r := PushHeaders(fold, r, http.headers);
  }

  method PushSsl(facts: Facts, ssl: Ssl) returns (r: Facts)
    ensures r == PushAll(facts, SslEntries(ssl))
  {
    PushNone(facts);
    hide PushAll, Maybe;
    r := facts;
    ghost var es := [];
    r, es := PushMaybe(r, facts, es, "ssl.subject_cn", ssl.subjectCn);
    assert es == Maybe("ssl.subject_cn", ssl.subjectCn);
    r, es := PushMaybe(r, facts, es, "ssl.issuer_cn", ssl.issuerCn);
    r, es := PushMaybe(r, facts, es, "ssl.self_signed", if ssl.selfSigned then Some("true") else None);
  }

  method PushSsh(facts: Facts, ssh: Ssh) returns (r: Facts)
    ensures r == PushAll(facts, SshEntries(ssh))
  {
    PushOne(facts, Entry("ssh.raw", ssh.raw));
    hide PushAll, Maybe;
    r := Push(facts, "ssh.raw", ssh.raw);
    ghost var es := [Entry("ssh.raw", ssh.raw)];
    r, es := PushMaybe(r, facts, es, "ssh.key_type", ssh.keyType);
    r, es := PushMaybe(r, facts, es, "ssh.fingerprint", ssh.fingerprint);
    r, es := PushMaybe(r, facts, es, "ssh.product", ssh.product);
    r, es := PushMaybe(r, facts, es, "ssh.version", ssh.version);
  }

  method PushFtp(facts: Facts, ftp: Ftp) returns (r: Facts)
    ensures r == PushAll(facts, FtpEntries(ftp))
  {
    PushNone(facts);
    hide PushAll, Maybe, Each;
    r := facts;
    ghost var es := [];
    r, es := PushMaybe(r, facts, es, "ftp.system", ftp.system);
    assert es == Maybe("ftp.system", ftp.system);
    r, es := PushMaybe(r, facts, es, "ftp.anonymous_listing", ftp.anonymousListing);
    PushAllAppend(facts, es, Each("ftp.features", Listed(ftp.features)));
    r := PushEach(r, "ftp.features", Listed(ftp.features));
    es := es + Each("ftp.features", Listed(ftp.features));
    PushAllAppend(facts, es, Each("ftp.commands", Listed(ftp.commands)));
    r := PushEach(r, "ftp.commands", Listed(ftp.commands));
  }

  method PushSmtp(facts: Facts, smtp: Smtp) returns (r: Facts)
    ensures r == PushAll(facts, SmtpEntries(smtp))
  {
    PushNone(facts);
    hide PushAll, Maybe, Each;
    r := facts;
    ghost var es := [];
    r, es := PushMaybe(r, facts, es, "smtp.starttls", ShownBool(smtp.starttls));
    assert es == Maybe("smtp.starttls", ShownBool(smtp.starttls));
    PushAllAppend(facts, es, Each("smtp.ehlo", Listed(smtp.ehlo)));
    r := PushEach(r, "smtp.ehlo", Listed(smtp.ehlo));
  }

  method PushMqtt(facts: Facts, mqtt: Mqtt) returns (r: Facts)
    ensures r == PushAll(facts, MqttEntries(mqtt))
  {
    PushNone(facts);
    hide PushAll, Maybe, Each;
    r := facts;
    ghost var es := [];
    r, es := PushMaybe(r, facts, es, "mqtt.version", mqtt.version);
    assert es == Maybe("mqtt.version", mqtt.version);
    r, es := PushMaybe(r, facts, es, "mqtt.return_code", Shown(mqtt.returnCode));
    PushAllAppend(facts, es, Each("mqtt.subscriptions", mqtt.subscriptions));
    r := PushEach(r, "mqtt.subscriptions", mqtt.subscriptions);
  }

  /** The payloads a record has, one after the other. */
  method PushPayloads(fold: Folding, facts: Facts, d: Service) returns (r: Facts)
    ensures r == PushAll(facts, OtherEntries(fold, d))
  {
    hide PushAll, CommonEntries, HttpEntries, SslEntries, SshEntries, FtpEntries, SmtpEntries, MqttEntries;
    r := PushCommon(facts, d);
    ghost var es := CommonEntries(d);
    PushPart(facts, es, HttpPart(fold, d.http));
    if d.http.Some? {
      r := PushHttp(fold, r, d.http.value);
    }
    es := es + HttpPart(fold, d.http);
    PushPart(facts, es, SslPart(d.ssl));
    if d.ssl.Some? {
      r := PushSsl(r, d.ssl.value);
    }
    es := es + SslPart(d.ssl);
    PushPart(facts, es, SshPart(d.ssh));
    if d.ssh.Some? {
      r := PushSsh(r, d.ssh.value);
    }
    es := es + SshPart(d.ssh);
    PushPart(facts, es, FtpPart(d.ftp));
    if d.ftp.Some? {
      r := PushFtp(r, d.ftp.value);
    }
    es := es + FtpPart(d.ftp);
    PushPart(facts, es, SmtpPart(d.smtp));
    if d.smtp.Some? {
      r := PushSmtp(r, d.smtp.value);
    }
    es := es + SmtpPart(d.smtp);
    PushPart(facts, es, MqttPart(d.mqtt));
    if d.mqtt.Some? {
      r := PushMqtt(r, d.mqtt.value);
    }
  }

  lemma PushPart(base: Facts, es: seq<Entry>, part: seq<Entry>)
    ensures PushAll(base, es + part) == PushAll(PushAll(base, es), part)
    ensures part == [] ==> PushAll(base, es + part) == PushAll(base, es)
  {
    PushAllAppend(base, es, part);
  }

  method From(fold: Folding, d: Service) returns (facts: Facts)
    ensures facts == FactsOf(fold, d)
  {
    PushOne(map[], Entry("kind", d.kind));
    hide PushAll, OtherEntries;
    facts := Push(map[], "kind", d.kind);
    facts := PushPayloads(fold, facts, d);
    PushAllAppend(map[], [Entry("kind", d.kind)], OtherEntries(fold, d));
  }

  // ─── What each key tells ───

  function One(text: Option<string>): seq<string> {
    if text.Some? then [text.value] else []
  }

  lemma MaybeTexts(k: string, text: Option<string>, key: string)
    ensures TextsOf(Maybe(k, text), key) == if k == key then One(text) else []
  {
  }

  /** A list of header values gives its strings in their order; what is no string is passed over. */
  lemma HeaderLists(a: seq<Option<string>>, b: seq<Option<string>>, text: string)
    ensures HeaderTexts(Several(a + b)) == HeaderTexts(Several(a)) + HeaderTexts(Several(b))
    ensures HeaderTexts(Several([Some(text)])) == HeaderTexts(Single(text)) == [text]
    ensures HeaderTexts(Several([None])) == HeaderTexts(Neither) == []
  {
    StringsAppend(a, b);
    assert [Some(text)][..0] == [] && Strings([]) == [];
    var none: seq<Option<string>> := [None];
    assert none[..0] == [];
  }

  lemma {:induction false} StringsAppend(a: seq<Option<string>>, b: seq<Option<string>>)
    ensures Strings(a + b) == Strings(a) + Strings(b)
    decreases |b|
  {
    if b == [] {
      assert a + b == a;
    } else {
      var n := |b| - 1;
      StringsAppend(a, b[..n]);
      assert (a + b)[..|a + b| - 1] == a + b[..n];
    }
  }

  lemma OneText(k: string, text: string, key: string)
    ensures TextsOf([Entry(k, text)], key) == if k == key then [text] else []
  {
    assert [Entry(k, text)][..0] == [];
  }

  lemma EachStep(k: string, texts: seq<string>)
    requires texts != []
    ensures var n := |texts| - 1; Each(k, texts) == Each(k, texts[..n]) + [Entry(k, texts[n])]
  {
  }

  lemma {:induction false} EachSame(k: string, texts: seq<string>)
    ensures TextsOf(Each(k, texts), k) == texts
  {
    if texts != [] {
      var n := |texts| - 1;
      hide TextsOf, Each;
      EachStep(k, texts);
      EachSame(k, texts[..n]);
      OneText(k, texts[n], k);
      TextsOfAppend(Each(k, texts[..n]), [Entry(k, texts[n])], k);
      assert texts == texts[..n] + [texts[n]];
    }
  }

  lemma {:induction false} EachOther(k: string, texts: seq<string>, key: string)
    requires k != key
    ensures TextsOf(Each(k, texts), key) == []
  {
    if texts != [] {
      var n := |texts| - 1;
      hide TextsOf, Each;
      EachStep(k, texts);
      EachOther(k, texts[..n], key);
      OneText(k, texts[n], key);
      TextsOfAppend(Each(k, texts[..n]), [Entry(k, texts[n])], key);
    }
  }

  lemma EachTexts(k: string, texts: seq<string>, key: string)
    ensures TextsOf(Each(k, texts), key) == if k == key then texts else []
  {
    if k == key {
      EachSame(k, texts);
    } else {
      EachOther(k, texts, key);
    }
  }

  /** What the keys about a certificate tell. */
  function SslTold(ssl: Ssl, key: string): seq<string> {
    match key
    case "ssl.subject_cn" => One(ssl.subjectCn)
    case "ssl.issuer_cn" => One(ssl.issuerCn)
    case "ssl.self_signed" => One(if ssl.selfSigned then Some("true") else None)
    case _ => []
  }

  /** About an SSH server. */
  function SshTold(ssh: Ssh, key: string): seq<string> {
    match key
    case "ssh.raw" => [ssh.raw]
    case "ssh.key_type" => One(ssh.keyType)
    case "ssh.fingerprint" => One(ssh.fingerprint)
    case "ssh.product" => One(ssh.product)
    case "ssh.version" => One(ssh.version)
    case _ => []
  }

  /** About an FTP server. */
  function FtpTold(ftp: Ftp, key: string): seq<string> {
    match key
    case "ftp.system" => One(ftp.system)
    case "ftp.anonymous_listing" => One(ftp.anonymousListing)
    case "ftp.features" => Listed(ftp.features)
    case "ftp.commands" => Listed(ftp.commands)
    case _ => []
  }

  /** About a mail server. */
  function SmtpTold(smtp: Smtp, key: string): seq<string> {
    match key
    case "smtp.starttls" => One(ShownBool(smtp.starttls))
    case "smtp.ehlo" => Listed(smtp.ehlo)
    case _ => []
  }

  /** About a broker. */
  function MqttTold(mqtt: Mqtt, key: string): seq<string> {
    match key
    case "mqtt.version" => One(mqtt.version)
    case "mqtt.return_code" => One(Shown(mqtt.returnCode))
    case "mqtt.subscriptions" => mqtt.subscriptions
    case _ => []
  }

  /** About the service itself, but for its kind. */
  function CommonTold(d: Service, key: string): seq<string> {
    match key
    case "port" => One(Shown(d.port))
    case "product" => One(d.product)
    case "version" => One(d.version)
    case "banner" => One(d.banner)
    case "tags" => d.tags
    case _ => []
  }

  /** About a page, its headers apart. */
  function PageTold(http: Http, key: string): seq<string> {
    match key
    case "http.status" => [Show(http.status)]
    case "http.title" => One(http.title)
    case "http.body" => One(http.body)
    case "http.server" => One(http.server)
    case "http.host" => One(http.host)
    case "http.rdns" => One(http.rdns)
    case "http.waf" => One(http.waf)
    case "http.favicon_hash" => One(ShownInt(http.faviconHash))
    case "http.html_hash" => One(ShownInt(http.htmlHash))
    case "http.robots" => One(http.robots)
    case "http.securitytxt" => One(http.securitytxt)
    case "http.tags" => http.tags
    case _ => []
  }

  lemma SslTexts(ssl: Ssl, key: string)
    ensures TextsOf(SslEntries(ssl), key) == SslTold(ssl, key)
  {
    MaybeTexts("ssl.subject_cn", ssl.subjectCn, key);
    MaybeTexts("ssl.issuer_cn", ssl.issuerCn, key);
    MaybeTexts("ssl.self_signed", if ssl.selfSigned then Some("true") else None, key);
    hide Maybe, Each, TextsOf;
    var e0 := Maybe("ssl.subject_cn", ssl.subjectCn);
    var e1 := Maybe("ssl.issuer_cn", ssl.issuerCn);
    var e2 := Maybe("ssl.self_signed", if ssl.selfSigned then Some("true") else None);
    TextsOfAppend(e0, e1, key);
    TextsOfAppend(e0 + e1, e2, key);
  }

  lemma SshTexts(ssh: Ssh, key: string)
    ensures TextsOf(SshEntries(ssh), key) == SshTold(ssh, key)
  {
    OneText("ssh.raw", ssh.raw, key);
    MaybeTexts("ssh.key_type", ssh.keyType, key);
    MaybeTexts("ssh.fingerprint", ssh.fingerprint, key);
    MaybeTexts("ssh.product", ssh.product, key);
    MaybeTexts("ssh.version", ssh.version, key);
    hide Maybe, Each, TextsOf;
    var e0 := [Entry("ssh.raw", ssh.raw)];
    var e1 := Maybe("ssh.key_type", ssh.keyType);
    var e2 := Maybe("ssh.fingerprint", ssh.fingerprint);
    var e3 := Maybe("ssh.product", ssh.product);
    var e4 := Maybe("ssh.version", ssh.version);
    TextsOfAppend(e0, e1, key);
    TextsOfAppend(e0 + e1, e2, key);
    TextsOfAppend(e0 + e1 + e2, e3, key);
    TextsOfAppend(e0 + e1 + e2 + e3, e4, key);
  }

  lemma FtpTexts(ftp: Ftp, key: string)
    ensures TextsOf(FtpEntries(ftp), key) == FtpTold(ftp, key)
  {
    MaybeTexts("ftp.system", ftp.system, key);
    MaybeTexts("ftp.anonymous_listing", ftp.anonymousListing, key);
    EachTexts("ftp.features", Listed(ftp.features), key);
    EachTexts("ftp.commands", Listed(ftp.commands), key);
    hide Maybe, Each, TextsOf;
    var e0 := Maybe("ftp.system", ftp.system);
    var e1 := Maybe("ftp.anonymous_listing", ftp.anonymousListing);
    var e2 := Each("ftp.features", Listed(ftp.features));
    var e3 := Each("ftp.commands", Listed(ftp.commands));
    TextsOfAppend(e0, e1, key);
    TextsOfAppend(e0 + e1, e2, key);
    TextsOfAppend(e0 + e1 + e2, e3, key);
  }

  lemma SmtpTexts(smtp: Smtp, key: string)
    ensures TextsOf(SmtpEntries(smtp), key) == SmtpTold(smtp, key)
  {
    MaybeTexts("smtp.starttls", ShownBool(smtp.starttls), key);
    EachTexts("smtp.ehlo", Listed(smtp.ehlo), key);
    hide Maybe, Each, TextsOf;
    var e0 := Maybe("smtp.starttls", ShownBool(smtp.starttls));
    var e1 := Each("smtp.ehlo", Listed(smtp.ehlo));
    TextsOfAppend(e0, e1, key);
  }

  lemma MqttTexts(mqtt: Mqtt, key: string)
    ensures TextsOf(MqttEntries(mqtt), key) == MqttTold(mqtt, key)
  {
    MaybeTexts("mqtt.version", mqtt.version, key);
    MaybeTexts("mqtt.return_code", Shown(mqtt.returnCode), key);
    EachTexts("mqtt.subscriptions", mqtt.subscriptions, key);
    hide Maybe, Each, TextsOf;
    var e0 := Maybe("mqtt.version", mqtt.version);
    var e1 := Maybe("mqtt.return_code", Shown(mqtt.returnCode));
    var e2 := Each("mqtt.subscriptions", mqtt.subscriptions);
    TextsOfAppend(e0, e1, key);
    TextsOfAppend(e0 + e1, e2, key);
  }

  lemma CommonTexts(d: Service, key: string)
    ensures TextsOf(CommonEntries(d), key) == CommonTold(d, key)
  {
    MaybeTexts("port", Shown(d.port), key);
    MaybeTexts("product", d.product, key);
    MaybeTexts("version", d.version, key);
    MaybeTexts("banner", d.banner, key);
    EachTexts("tags", d.tags, key);
    hide Maybe, Each, TextsOf;
    var e0 := Maybe("port", Shown(d.port));
    var e1 := Maybe("product", d.product);
    var e2 := Maybe("version", d.version);
    var e3 := Maybe("banner", d.banner);
    var e4 := Each("tags", d.tags);
    TextsOfAppend(e0, e1, key);
    TextsOfAppend(e0 + e1, e2, key);
    TextsOfAppend(e0 + e1 + e2, e3, key);
    TextsOfAppend(e0 + e1 + e2 + e3, e4, key);
  }

  /** About the headers: every header of that name in any case, its texts in order. */
  function HeaderTold(fold: Folding, headers: seq<Header>, key: string): seq<string> {
    if headers == [] then []
    else
      var n := |headers| - 1;
      HeaderTold(fold, headers[..n], key)
      + if key == "http.header." + fold(headers[n].name) then HeaderTexts(headers[n].value) else []
  }

  lemma {:induction false} HeaderTextsTold(fold: Folding, headers: seq<Header>, key: string)
    ensures TextsOf(HeaderEntries(fold, headers), key) == HeaderTold(fold, headers, key)
  {
    if headers != [] {
      var n := |headers| - 1;
      var k, texts := "http.header." + fold(headers[n].name), HeaderTexts(headers[n].value);
      HeaderTextsTold(fold, headers[..n], key);
      EachTexts(k, texts, key);
      TextsOfAppend(HeaderEntries(fold, headers[..n]), Each(k, texts), key);
      hide Each, TextsOf, HeaderTexts;
    }
  }

  lemma PageSums(http: Http, key: string)
    ensures PageTold(http, key) ==
      (if key == "http.status" then [Show(http.status)] else [])
      + (if key == "http.title" then One(http.title) else [])
      + (if key == "http.body" then One(http.body) else [])
      + (if key == "http.server" then One(http.server) else [])
      + (if key == "http.host" then One(http.host) else [])
      + (if key == "http.rdns" then One(http.rdns) else [])
      + (if key == "http.waf" then One(http.waf) else [])
      + (if key == "http.favicon_hash" then One(ShownInt(http.faviconHash)) else [])
      + (if key == "http.html_hash" then One(ShownInt(http.htmlHash)) else [])
      + (if key == "http.robots" then One(http.robots) else [])
      + (if key == "http.securitytxt" then One(http.securitytxt) else [])
      + (if key == "http.tags" then http.tags else [])
  {
    hide One, Show, ShownInt;
  }

  lemma HttpTexts(fold: Folding, http: Http, key: string)
    ensures TextsOf(HttpEntries(fold, http), key) == PageTold(http, key) + HeaderTold(fold, http.headers, key)
  {
    PageSums(http, key);
    hide PageTold, HeaderTold, Maybe, Each, TextsOf, HeaderEntries;
    HeaderTextsTold(fold, http.headers, key);
    OneText("http.status", Show(http.status), key);
    MaybeTexts("http.title", http.title, key);
    MaybeTexts("http.body", http.body, key);
    MaybeTexts("http.server", http.server, key);
    MaybeTexts("http.host", http.host, key);
    MaybeTexts("http.rdns", http.rdns, key);
    MaybeTexts("http.waf", http.waf, key);
    MaybeTexts("http.favicon_hash", ShownInt(http.faviconHash), key);
    MaybeTexts("http.html_hash", ShownInt(http.htmlHash), key);
    MaybeTexts("http.robots", http.robots, key);
    MaybeTexts("http.securitytxt", http.securitytxt, key);
    EachTexts("http.tags", http.tags, key);
    var all := [Entry("http.status", Show(http.status))];
    TextsOfAppend(all, Maybe("http.title", http.title), key);
    all := all + Maybe("http.title", http.title);
    TextsOfAppend(all, Maybe("http.body", http.body), key);
    all := all + Maybe("http.body", http.body);
    TextsOfAppend(all, Maybe("http.server", http.server), key);
    all := all + Maybe("http.server", http.server);
    TextsOfAppend(all, Maybe("http.host", http.host), key);
    all := all + Maybe("http.host", http.host);
    TextsOfAppend(all, Maybe("http.rdns", http.rdns), key);
    all := all + Maybe("http.rdns", http.rdns);
    TextsOfAppend(all, Maybe("http.waf", http.waf), key);
    all := all + Maybe("http.waf", http.waf);
    TextsOfAppend(all, Maybe("http.favicon_hash", ShownInt(http.faviconHash)), key);
    all := all + Maybe("http.favicon_hash", ShownInt(http.faviconHash));
    TextsOfAppend(all, Maybe("http.html_hash", ShownInt(http.htmlHash)), key);
    all := all + Maybe("http.html_hash", ShownInt(http.htmlHash));
    TextsOfAppend(all, Maybe("http.robots", http.robots), key);
    all := all + Maybe("http.robots", http.robots);
    TextsOfAppend(all, Maybe("http.securitytxt", http.securitytxt), key);
    all := all + Maybe("http.securitytxt", http.securitytxt);
    TextsOfAppend(all, Each("http.tags", http.tags), key);
    all := all + Each("http.tags", http.tags);
    TextsOfAppend(all, HeaderEntries(fold, http.headers), key);
  }

  /** What a key tells of a record: the parts it has no say in add nothing. */
  function Told(fold: Folding, d: Service, key: string): seq<string> {
    (if key == "kind" then [d.kind] else []) + RestTold(fold, d, key)
  }

  function RestTold(fold: Folding, d: Service, key: string): seq<string> {
    CommonTold(d, key)
    + (if d.http.Some? then PageTold(d.http.value, key) + HeaderTold(fold, d.http.value.headers, key) else [])
    + (if d.ssl.Some? then SslTold(d.ssl.value, key) else [])
    + (if d.ssh.Some? then SshTold(d.ssh.value, key) else [])
    + (if d.ftp.Some? then FtpTold(d.ftp.value, key) else [])
    + (if d.smtp.Some? then SmtpTold(d.smtp.value, key) else [])
    + (if d.mqtt.Some? then MqttTold(d.mqtt.value, key) else [])
  }

  lemma PartTexts(fold: Folding, d: Service, key: string)
    ensures TextsOf(HttpPart(fold, d.http), key) ==
      if d.http.Some? then PageTold(d.http.value, key) + HeaderTold(fold, d.http.value.headers, key) else []
    ensures TextsOf(SslPart(d.ssl), key) == if d.ssl.Some? then SslTold(d.ssl.value, key) else []
    ensures TextsOf(SshPart(d.ssh), key) == if d.ssh.Some? then SshTold(d.ssh.value, key) else []
    ensures TextsOf(FtpPart(d.ftp), key) == if d.ftp.Some? then FtpTold(d.ftp.value, key) else []
    ensures TextsOf(SmtpPart(d.smtp), key) == if d.smtp.Some? then SmtpTold(d.smtp.value, key) else []
    ensures TextsOf(MqttPart(d.mqtt), key) == if d.mqtt.Some? then MqttTold(d.mqtt.value, key) else []
  {
    hide HttpEntries, SslEntries, SshEntries, FtpEntries, SmtpEntries, MqttEntries, PageTold, HeaderTold,
         SslTold, SshTold, FtpTold, SmtpTold, MqttTold;
    if d.http.Some? { HttpTexts(fold, d.http.value, key); }
    if d.ssl.Some? { SslTexts(d.ssl.value, key); }
    if d.ssh.Some? { SshTexts(d.ssh.value, key); }
    if d.ftp.Some? { FtpTexts(d.ftp.value, key); }
    if d.smtp.Some? { SmtpTexts(d.smtp.value, key); }
    if d.mqtt.Some? { MqttTexts(d.mqtt.value, key); }
  }

  lemma RestTexts(fold: Folding, d: Service, key: string)
    ensures TextsOf(OtherEntries(fold, d), key) == RestTold(fold, d, key)
  {
    CommonTexts(d, key);
    PartTexts(fold, d, key);
    hide CommonEntries, HttpPart, SslPart, SshPart, FtpPart, SmtpPart, MqttPart, TextsOf, PageTold, HeaderTold,
         CommonTold, SslTold, SshTold, FtpTold, SmtpTold, MqttTold;
    var all := CommonEntries(d);
    TextsOfAppend(all, HttpPart(fold, d.http), key);
    all := all + HttpPart(fold, d.http);
    TextsOfAppend(all, SslPart(d.ssl), key);
    all := all + SslPart(d.ssl);
    TextsOfAppend(all, SshPart(d.ssh), key);
    all := all + SshPart(d.ssh);
    TextsOfAppend(all, FtpPart(d.ftp), key);
    all := all + FtpPart(d.ftp);
    TextsOfAppend(all, SmtpPart(d.smtp), key);
    all := all + SmtpPart(d.smtp);
    TextsOfAppend(all, MqttPart(d.mqtt), key);
  }

  /** A matcher sees under each key the fields of that name, and nothing else. */
  lemma ValuesAreTold(fold: Folding, d: Service, key: string)
    ensures Values(FactsOf(fold, d), key) == Told(fold, d, key)
  {
    hide OtherEntries, RestTold, TextsOf, Values, PushAll;
    ValuesArePushed(Entries(fold, d), key);
    OneText("kind", d.kind, key);
    TextsOfAppend([Entry("kind", d.kind)], OtherEntries(fold, d), key);
    RestTexts(fold, d, key);
  }
}
