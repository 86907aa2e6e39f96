/** A service record (crates/scanerr-protocol/src/models.rs), as a value and as the object the program updates. */
module Services {
  import opened Text

  /** A header value as JSON: a string, a list (None: an item that is no string), or anything else. */
  datatype HeaderValue = Single(text: string) | Several(items: seq<Option<string>>) | Neither

  datatype Header = Header(name: string, value: HeaderValue)

  /** `rest`: whatever else its JSON holds and no step looks at (the hash of the headers, redirects, odd header values). */
  datatype Http = Http(
    status: nat, title: Option<string>, body: Option<string>, server: Option<string>,
    host: Option<string>, rdns: Option<string>, waf: Option<string>,
    faviconHash: Option<int>, htmlHash: Option<int>,
    robots: Option<string>, securitytxt: Option<string>,
    tags: seq<string>, headers: seq<Header>, rest: string)

  datatype Ssl = Ssl(subjectCn: Option<string>, issuerCn: Option<string>, selfSigned: bool)

  datatype Ssh = Ssh(
    raw: string, keyType: Option<string>, fingerprint: Option<string>,
    product: Option<string>, version: Option<string>)

  datatype Ftp = Ftp(
    system: Option<string>, anonymousListing: Option<string>,
    features: Option<seq<string>>, commands: Option<seq<string>>)

  datatype Smtp = Smtp(starttls: Option<bool>, ehlo: Option<seq<string>>)

  datatype Mqtt = Mqtt(version: Option<string>, returnCode: Option<nat>, subscriptions: seq<string>)

  /** `rest`: whatever else the JSON holds and no step looks at (RTSP, SCCP, MikroTik and POP3, the SSH key). */
  datatype Service = Service(
    kind: string, port: Option<nat>, product: Option<string>, version: Option<string>,
    confidence: Option<nat>, tags: seq<string>, banner: Option<string>,
    http: Option<Http>, ssl: Option<Ssl>, ssh: Option<Ssh>, ftp: Option<Ftp>, smtp: Option<Smtp>, mqtt: Option<Mqtt>,
    rest: string)

  class Record {
    var kind: string
    var port: Option<nat>
    var product: Option<string>
    var version: Option<string>
    var confidence: Option<nat>
    var tags: seq<string>
    var banner: Option<string>
    var http: Option<Http>
    var ssl: Option<Ssl>
    var ssh: Option<Ssh>
    var ftp: Option<Ftp>
    var smtp: Option<Smtp>
    var mqtt: Option<Mqtt>
    var rest: string

    function Data(): Service
      reads this
    {
      Service(kind, port, product, version, confidence, tags, banner,
              http, ssl, ssh, ftp, smtp, mqtt, rest)
    }

    constructor (d: Service)
      ensures Data() == d
    {
      kind, port, product, version, confidence := d.kind, d.port, d.product, d.version, d.confidence;
      tags, banner := d.tags, d.banner;
      http, ssl, ssh, ftp, smtp, mqtt, rest := d.http, d.ssl, d.ssh, d.ftp, d.smtp, d.mqtt, d.rest;
    }
  }
}
