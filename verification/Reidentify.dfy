/**
 Re-identifying a stored record (src/reidentify.rs, lines 46-71): reset,
 detect, identify, normalise, and what running it again changes.
 */
module Reidentify {
  import opened Text
  import opened Services
  import opened Evidence
  import opened Matching
  import opened Fingerprint
  import opened Technology
  import opened Normalize

  /** The libraries and the signatures loaded. */
  datatype Engine = Engine(lib: Library, sigs: seq<Signature>)

  function Refreshed(e: Engine, http: Http): Http {
    var body := if http.body.Some? then http.body.value else "";
    http.(tags := Merge(http.tags, Detected(e.lib.fold, http.headers, body)))
  }

  /** What identification starts from: earlier findings gone, technology tags up to date. */
  function Reset(e: Engine, d: Service): Service {
    d.(product := None, version := None, confidence := None, tags := [],
       http := if d.http.Some? then Some(Refreshed(e, d.http.value)) else None)
  }

  function Reidentified(e: Engine, d: Service): Service {
    Normalized(e.lib.fold, Identified(e.lib, e.sigs, Reset(e, d)))
  }

  method RefreshHttp(e: Engine, http: Http) returns (r: Http)
    ensures r == Refreshed(e, http)
  {
    var body := if http.body.Some? then http.body.value else "";
    var found := Detect(e.lib.fold, http.headers, body);
    var tags := MergeTags(http.tags, found);
    r := http.(tags := tags);
  }

  method ResetRecord(e: Engine, data: Record)
    modifies data
    ensures data.Data() == Reset(e, old(data.Data()))
  {
    hide Refreshed;
    data.product, data.version, data.confidence, data.tags := None, None, None, [];
    if data.http.Some? {
      var http := RefreshHttp(e, data.http.value);
      data.http := Some(http);
    }
  }

  /**
   What one run leaves of a record: no version, the kind made canonical, the
   detected technologies merged into the tags of the page, and of product,
   confidence and tags only what identification finds; all else as it was.
   */
  predicate Leaves(e: Engine, d: Service, r: Service) {
    && r.version == None && r.kind == CanonicalKind(d.kind)
    && r.port == d.port && r.banner == d.banner && r.ssl == d.ssl && r.ssh == d.ssh && r.ftp == d.ftp
    && r.smtp == d.smtp && r.mqtt == d.mqtt && r.rest == d.rest
    && (d.http == None ==> r.http == None)
    && (d.http != None ==>
          var http := d.http.value;
          var body := if http.body.Some? then http.body.value else "";
          r.http == Some(http.(tags := Merge(http.tags, Detected(e.lib.fold, http.headers, body)))))
  }

  method ReidentifyRecord(e: Engine, data: Record)
    modifies data
    ensures data.Data() == Reidentified(e, old(data.Data()))
    ensures Leaves(e, old(data.Data()), data.Data())
  {
    KeepsRest(e, data.Data());
    hide Reset, Identified, Normalized, Leaves;
    ResetRecord(e, data);
    Identify(e.lib, e.sigs, data);
    NormalizeService(e.lib.fold, data);
  }

  function WithCanonicalKind(d: Service): Service {
    d.(kind := CanonicalKind(d.kind))
  }

  lemma RefreshedTwice(e: Engine, http: Http)
    ensures Refreshed(e, Refreshed(e, http)) == Refreshed(e, http)
  {
    var body := if http.body.Some? then http.body.value else "";
    MergeTwice(http.tags, Detected(e.lib.fold, http.headers, body));
  }

  lemma KeepsFields(e: Engine, d: Service)
    ensures var r := Reidentified(e, d);
      && r.kind == CanonicalKind(d.kind) && r.port == d.port && r.banner == d.banner && r.http == Reset(e, d).http
      && r.ssl == d.ssl && r.ssh == d.ssh && r.ftp == d.ftp && r.smtp == d.smtp && r.mqtt == d.mqtt && r.rest == d.rest
  {
  }

  lemma KeepsRest(e: Engine, d: Service)
    ensures Leaves(e, d, Reidentified(e, d))
  {
    hide NormalTags, Winner, FirstWithId, Detected, Merge;
  }

  /** What was found before is forgotten: the outcome does not depend on it. */
  lemma FindingsForgotten(e: Engine, d: Service, product: Option<string>, version: Option<string>,
                          confidence: Option<nat>, tags: seq<string>)
    ensures var other := d.(product := product, version := version, confidence := confidence, tags := tags);
      Reidentified(e, other) == Reidentified(e, d)
  {
    var other := d.(product := product, version := version, confidence := confidence, tags := tags);
    assert Reset(e, other) == Reset(e, d);
  }

  /** After one run a record is reset to what its canonical kind would have been reset to before. */
  lemma ResetAgain(e: Engine, d: Service)
    ensures Reset(e, Reidentified(e, d)) == Reset(e, WithCanonicalKind(d))
  {
    KeepsFields(e, d);
    hide Reidentified, Refreshed;
    if d.http.Some? {
      RefreshedTwice(e, d.http.value);
    }
  }

  /** The second run gives what the first would have given the record with its kind made canonical. */
  lemma SecondRun(e: Engine, d: Service)
    ensures Reidentified(e, Reidentified(e, d)) == Reidentified(e, WithCanonicalKind(d))
  {
    ResetAgain(e, d);
  }

  /** What identification of the reset record comes to. */
  datatype Finding = Finding(product: string, confidence: nat, tags: seq<string>)

  /** The canonical product, the confidence and the canonical tags of the winner, if there is one. */
  function FindingOf(e: Engine, d: Service): Option<Finding> {
    var winner := Winner(e.lib, e.sigs, FactsOf(e.lib.fold, Reset(e, d)));
    if winner.None? then None
    else
      var sig := FirstWithId(e.sigs, winner.value.id);
      if sig.None? then None
      else
        Some(Finding(CanonicalProduct(sig.value.name), winner.value.confidence,
                     NormalTags(e.lib.fold, d.kind, Merge([], sig.value.tags))))
  }

  /** The finding decides all that identification and normalisation add to the reset record. */
  lemma ByFinding(e: Engine, d: Service)
    ensures var found := FindingOf(e, d);
      Reidentified(e, d) == Reset(e, d).(
        kind := CanonicalKind(d.kind),
        product := if found.Some? then Some(found.value.product) else None,
        confidence := if found.Some? then Some(found.value.confidence) else None,
        tags := if found.Some? then found.value.tags else NormalTags(e.lib.fold, d.kind, []))
  {
    hide Winner, FactsOf, NormalTags, CanonicalProduct, Merge, FirstWithId, CanonicalKind, Refreshed;
  }

  lemma SameKindTags(fold: Folding, d: Service, tags: seq<string>)
    ensures NormalTags(fold, WithCanonicalKind(d).kind, tags) == NormalTags(fold, d.kind, tags)
    ensures CanonicalKind(WithCanonicalKind(d).kind) == CanonicalKind(d.kind)
  {
    CanonicalKindFixed(d.kind);
  }

  /**
   One run settles a record exactly when identification comes to the same thing
   with the kind as it is and with the kind made canonical: no winner either way,
   or winners of one canonical product, confidence and set of canonical tags.
   */
  lemma SettledByOne(e: Engine, d: Service)
    ensures Reidentified(e, Reidentified(e, d)) == Reidentified(e, d) <==>
      FindingOf(e, d) == FindingOf(e, WithCanonicalKind(d))
  {
    SecondRun(e, d);
    ByFinding(e, d);
    ByFinding(e, WithCanonicalKind(d));
    SameKindTags(e.lib.fold, d, []);
    hide FindingOf, NormalTags, CanonicalKind, Reidentified, Refreshed;
  }

  /** With a canonical kind there is nothing to differ. */
  lemma CanonicalSettledByOne(e: Engine, d: Service)
    requires CanonicalKind(d.kind) == d.kind
    ensures Reidentified(e, Reidentified(e, d)) == Reidentified(e, d)
  {
    SettledByOne(e, d);
    assert WithCanonicalKind(d) == d;
  }

  /** Two runs settle every record: a third changes nothing. */
  lemma SettledByTwo(e: Engine, d: Service)
    ensures var twice := Reidentified(e, Reidentified(e, d));
      Reidentified(e, twice) == twice
  {
    var once := Reidentified(e, d);
    KeepsFields(e, d);
    CanonicalKindFixed(d.kind);
    hide Reidentified, CanonicalKind;
    CanonicalSettledByOne(e, once);
  }

  // ─── Signatures that do not look at the kind ───

  predicate KindBlind(sigs: seq<Signature>) {
    forall s, m :: s in sigs && m in s.matchers ==> m.field != "kind"
  }

  lemma SameHitOn(lib: Library, m: Matcher, a: Facts, b: Facts)
    requires Values(a, m.field) == Values(b, m.field)
    ensures HitOn(lib, m, a) == HitOn(lib, m, b)
  {
    hide Hit, Values;
  }

  lemma {:induction false} SameHits(lib: Library, ms: seq<Matcher>, a: Facts, b: Facts)
    requires forall m :: m in ms ==> Values(a, m.field) == Values(b, m.field)
    ensures HitWeights(lib, ms, a) == HitWeights(lib, ms, b)
  {
    hide HitOn, Values;
    if ms != [] {
      var n := |ms| - 1;
      SameHits(lib, ms[..n], a, b);
      SameHitOn(lib, ms[n], a, b);
    }
  }

  lemma SameStanding(lib: Library, sigs: seq<Signature>, a: Facts, b: Facts, s: Signature, t: Signature)
    requires HitWeights(lib, s.matchers, a) == HitWeights(lib, s.matchers, b)
    requires HitWeights(lib, t.matchers, a) == HitWeights(lib, t.matchers, b)
    ensures Matched(lib, s, a) == Matched(lib, s, b)
    ensures Evaluated(lib, s, a) == Evaluated(lib, s, b)
    ensures Beats(lib, sigs, a, s, t) == Beats(lib, sigs, b, s, t)
  {
    hide HitWeights, Sum, Max, Percent, PriorityOf;
  }

  /** Signatures see nothing that tells the two apart. */
  ghost predicate Alike(lib: Library, sigs: seq<Signature>, a: Facts, b: Facts) {
    forall i :: 0 <= i < |sigs| ==> HitWeights(lib, sigs[i].matchers, a) == HitWeights(lib, sigs[i].matchers, b)
  }

  lemma {:induction false} SameBest(lib: Library, sigs: seq<Signature>, a: Facts, b: Facts, n: nat)
    requires n <= |sigs| && Alike(lib, sigs, a, b)
    ensures Best(lib, sigs, a, n) == Best(lib, sigs, b, n)
    decreases n
  {
    hide HitWeights, Matched, Beats;
    if n > 0 {
      SameBest(lib, sigs, a, b, n - 1);
      SameStanding(lib, sigs, a, b, sigs[n - 1], sigs[n - 1]);
      var best := Best(lib, sigs, a, n - 1);
      if best.Some? {
        SameStanding(lib, sigs, a, b, sigs[n - 1], sigs[best.value]);
      }
    }
  }

  lemma SameWinner(lib: Library, sigs: seq<Signature>, a: Facts, b: Facts)
    requires Alike(lib, sigs, a, b)
    ensures Winner(lib, sigs, a) == Winner(lib, sigs, b)
  {
    hide HitWeights, Evaluated, Best;
    SameBest(lib, sigs, a, b, |sigs|);
    var best := Best(lib, sigs, a, |sigs|);
    if best.Some? {
      SameStanding(lib, sigs, a, b, sigs[best.value], sigs[best.value]);
    }
  }

  lemma TextsOfOne(e: Entry, key: string)
    ensures TextsOf([e], key) == if e.key == key then [e.text] else []
  {
    assert [e][..0] == [];
  }

  /** The kind shows under no other key. */
  lemma KindShows(fold: Folding, d: Service, kind: string, key: string)
    requires key != "kind"
    ensures Values(FactsOf(fold, d), key) == Values(FactsOf(fold, d.(kind := kind)), key)
  {
    SameOthers(fold, d, kind);
    hide OtherEntries;
    OtherTexts(fold, d, key);
    OtherTexts(fold, d.(kind := kind), key);
  }

  lemma OtherTexts(fold: Folding, d: Service, key: string)
    requires key != "kind"
    ensures Values(FactsOf(fold, d), key) == TextsOf(OtherEntries(fold, d), key)
  {
    hide OtherEntries, PushAll, TextsOf, Values;
    var head := Entry("kind", d.kind);
    ValuesArePushed(Entries(fold, d), key);
    TextsOfOne(head, key);
    TextsOfAppend([head], OtherEntries(fold, d), key);
    assert [] + TextsOf(OtherEntries(fold, d), key) == TextsOf(OtherEntries(fold, d), key);
  }

  lemma SameOthers(fold: Folding, d: Service, kind: string)
    ensures OtherEntries(fold, d.(kind := kind)) == OtherEntries(fold, d)
  {
    hide HttpPart, SslPart, SshPart, FtpPart, SmtpPart, MqttPart;
  }

  lemma BlindAlike(lib: Library, sigs: seq<Signature>, d: Service, kind: string)
    requires KindBlind(sigs)
    ensures Alike(lib, sigs, FactsOf(lib.fold, d), FactsOf(lib.fold, d.(kind := kind)))
  {
    var a, b := FactsOf(lib.fold, d), FactsOf(lib.fold, d.(kind := kind));
    hide FactsOf, HitWeights, Values;
    forall i | 0 <= i < |sigs| ensures HitWeights(lib, sigs[i].matchers, a) == HitWeights(lib, sigs[i].matchers, b) {
      assert sigs[i] in sigs;
      forall m | m in sigs[i].matchers ensures Values(a, m.field) == Values(b, m.field) {
        KindShows(lib.fold, d, kind, m.field);
      }
      SameHits(lib, sigs[i].matchers, a, b);
    }
  }

  lemma BlindIdentified(lib: Library, sigs: seq<Signature>, d: Service, kind: string)
    requires KindBlind(sigs)
    ensures Identified(lib, sigs, d.(kind := kind)) == Identified(lib, sigs, d).(kind := kind)
  {
    BlindAlike(lib, sigs, d, kind);
    SameWinner(lib, sigs, FactsOf(lib.fold, d), FactsOf(lib.fold, d.(kind := kind)));
    hide Winner, FactsOf, KindBlind, FirstWithId, Merge;
  }

  lemma NormalizedKind(fold: Folding, d: Service)
    ensures Normalized(fold, WithCanonicalKind(d)) == Normalized(fold, d)
  {
    CanonicalKindFixed(d.kind);
    hide CanonicalKind, CategoryTags, CanonicalTags, CanonicalProduct;
  }

  /** With signatures that do not look at the kind, one run settles every record. */
  lemma BlindSettledByOne(e: Engine, d: Service)
    requires KindBlind(e.sigs)
    ensures Reidentified(e, Reidentified(e, d)) == Reidentified(e, d)
  {
    SecondRun(e, d);
    BlindIdentified(e.lib, e.sigs, Reset(e, d), CanonicalKind(d.kind));
    hide Identified, Normalized, CanonicalKind;
    assert Reset(e, WithCanonicalKind(d)) == Reset(e, d).(kind := CanonicalKind(d.kind));
    KeepsKind(e, Reset(e, d));
    NormalizedKind(e.lib.fold, Identified(e.lib, e.sigs, Reset(e, d)));
  }

  lemma KeepsKind(e: Engine, d: Service)
    ensures Identified(e.lib, e.sigs, d).kind == d.kind
  {
  }

  // ─── A record one run does not settle ───

  /** One signature, for what the probe called a camera. */
  function CameraEngine(lib: Library): Engine {
    Engine(lib, [Signature("cam", "cam", [], 50, Any, [Matcher("kind", Equals, "camera", 1, None)])])
  }

  function BareRecord(kind: string): Service {
    Service(kind, None, None, None, None, [], None,
            Some(Http(200, None, None, None, None, None, None, None, None, None, None, [], [], "")),
            None, None, None, None, None, "")
  }

  lemma BareReset(lib: Library, kind: string)
    ensures Reset(CameraEngine(lib), BareRecord(kind)) == BareRecord(kind)
  {
    NothingInEmptyPage();
    hide BodyTags;
  }

  lemma BareHttp(fold: Folding, kind: string)
    ensures HttpEntries(fold, BareRecord(kind).http.value) == [Entry("http.status", Show(200))]
  {
    hide Show;
    assert HeaderEntries(fold, []) == [];
    assert Each("http.tags", []) == [];
  }

  lemma BareEntries(fold: Folding, kind: string)
    ensures Entries(fold, BareRecord(kind)) == [Entry("kind", kind)] + [Entry("http.status", Show(200))]
  {
    BareHttp(fold, kind);
    hide HttpEntries, Show;
    assert CommonEntries(BareRecord(kind)) == [];
    assert OtherEntries(fold, BareRecord(kind)) == [Entry("http.status", Show(200))];
  }

  lemma BareFacts(fold: Folding, kind: string)
    ensures Values(FactsOf(fold, BareRecord(kind)), "kind") == [kind]
  {
    var status := Entry("http.status", Show(200));
    BareEntries(fold, kind);
    hide PushAll, Values, Entries, Show, TextsOf;
    ValuesArePushed(Entries(fold, BareRecord(kind)), "kind");
    TextsOfAppend([Entry("kind", kind)], [status], "kind");
    TextsOfOne(Entry("kind", kind), "kind");
    TextsOfOne(status, "kind");
  }

  lemma CameraMatches(lib: Library, facts: Facts, kind: string)
    requires Values(facts, "kind") == [kind]
    ensures Matched(lib, CameraEngine(lib).sigs[0], facts) <==> kind == "camera"
  {
    hide Values, Matched, Hit;
    var s := CameraEngine(lib).sigs[0];
    MatchedMeans(lib, s, facts);
    EqualsHits(lib, s.matchers[0], kind);
    assert HitOn(lib, s.matchers[0], facts) <==> kind == "camera";
  }

  lemma EqualsHits(lib: Library, m: Matcher, value: string)
    requires m.op.Equals?
    ensures Hit(lib, m, [value]) <==> value == m.value
  {
    assert [value][0] == value;
  }

  lemma CameraIdentified(lib: Library, kind: string)
    ensures Identified(lib, CameraEngine(lib).sigs, BareRecord(kind)).product ==
      if kind == "camera" then Some("cam") else None
  {
    var facts := FactsOf(lib.fold, BareRecord(kind));
    BareFacts(lib.fold, kind);
    hide FactsOf, Values, Matched, Evaluated, Merge, Beats;
    CameraMatches(lib, facts, kind);
    var sigs := CameraEngine(lib).sigs;
    assert |sigs| == 1;
    assert Best(lib, sigs, facts, 0) == None;
    EvaluatedId(lib, sigs[0], facts);
  }

  lemma EvaluatedId(lib: Library, s: Signature, facts: Facts)
    ensures Evaluated(lib, s, facts).id == s.id
  {
  }

  lemma ProductSlug(fold: Folding, d: Service)
    ensures Normalized(fold, d).product ==
      if d.product.Some? then Some(CanonicalProduct(d.product.value)) else None
  {
  }

  /** The signature wins while the kind is `camera`, and not once it has been made `http`. */
  lemma CameraProduct(lib: Library, kind: string)
    ensures Reidentified(CameraEngine(lib), BareRecord(kind)).product.Some? <==> kind == "camera"
  {
    BareReset(lib, kind);
    CameraIdentified(lib, kind);
    hide Identified, Normalized, CanonicalProduct, Reset;
    ProductSlug(lib.fold, Identified(lib, CameraEngine(lib).sigs, BareRecord(kind)));
  }

  lemma NotSettledByOne(lib: Library)
    ensures var e, d := CameraEngine(lib), BareRecord("camera");
      Reidentified(e, Reidentified(e, d)) != Reidentified(e, d)
  {
    var e, d := CameraEngine(lib), BareRecord("camera");
    SecondRun(e, d);
    hide Reidentified;
    CameraProduct(lib, "camera");
    CameraProduct(lib, "http");
    assert WithCanonicalKind(d) == BareRecord("http");
  }
}
