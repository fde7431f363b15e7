/**
 The `POST` handler of the scan route as a pure function.

 Every network interaction is replaced by its observed outcome: one `Probe`
 per HTTP request (TLS, XSS, SQL, headers), the clock reading taken by the
 TLS check, and one socket event trace per configured port. The handler
 rejects a falsy `url`, starts from an all-negative report and runs five
 sections in order, each of which writes only its own field and keeps the
 default when its request fails.
 */
module ScanRoute {
  import opened Outcomes
  import opened Text
  import opened PortProbe

  const UrlRequired: string := "URL is required"
  const BadRequest: int := 400

  /** The string the XSS check sends and then looks for in the response body. */
  const XssPayload: string := "<script>alert('XSS')</script>"
  /** The two markers whose presence in a response body flags SQL injection. */
  const SqlErrorMarker: string := "SQL error"
  const DatabaseMarker: string := "database"

  /** Header names as the HTTP client reports them (lower case). */
  const CspHeader: string := "content-security-policy"
  const HstsHeader: string := "strict-transport-security"
  const MissingCsp: string := "Missing Content-Security-Policy"
  const MissingHsts: string := "Missing Strict-Transport-Security"

  const PortsToCheck: seq<int> := [80, 443]

  /** `new Date(certificate.valid_to)`: a millisecond instant, or an Invalid
      Date when the field is absent or unparsable. */
  datatype CertDate = Instant(millis: int) | InvalidDate

  datatype PortEntry = PortEntry(port: int, status: string)

  datatype ScanResult = ScanResult(
    sslValid: bool,
    xssVulnerable: bool,
    sqlInjectionVulnerable: bool,
    missingHeaders: seq<string>,
    openPorts: seq<PortEntry>)

  /** The JSON the handler answers with. */
  datatype Response = ErrorResponse(error: string, status: int) | Report(result: ScanResult)

  /** Everything the handler observes of the outside world during one scan. */
  datatype Observations = Observations(
    now: int,                               // `new Date()` at the TLS comparison, in ms
    tls: Probe<CertDate>,                   // GET url, then the peer certificate's expiry
    xss: Probe<string>,                     // GET url with the XSS payload, response body
    sql: Probe<string>,                     // GET url with the SQL payload, response body
    headers: Probe<map<string, string>>,    // GET url, response headers
    portTraces: seq<seq<SocketEvent>>)      // socket events of each port probe, in port order

  /** JavaScript truthiness of the `url` field: present and not the empty string. */
  predicate Truthy(url: Option<string>) {
    url.Some? && url.value != ""
  }

  /** Every port probe sees at least one event. The 2000 ms idle timeout on
      each socket guarantees this; without it the handler would wait forever. */
  predicate AllSettle(traces: seq<seq<SocketEvent>>) {
    forall i :: 0 <= i < |traces| ==> |traces[i]| > 0
  }

  /** One trace per configured port, each of which settles. */
  predicate WellFormed(obs: Observations) {
    |obs.portTraces| == |PortsToCheck| && AllSettle(obs.portTraces)
  }

  const InitialReport := ScanResult(false, false, false, [], [])

  /** `expiryDate > new Date()`: an Invalid Date compares false. */
  predicate ExpiresAfter(d: CertDate, now: int) {
    match d
    case Instant(ms) => ms > now
    case InvalidDate => false
  }

  /** `!response.headers[name]`: absent, or present with the falsy empty string. */
  predicate HeaderMissing(h: map<string, string>, name: string) {
    name !in h || h[name] == ""
  }

  /** The two `if` statements of the header check, in source order. */
  function MissingHeaderList(h: map<string, string>): (m: seq<string>)
    ensures m == [] || m == [MissingCsp] || m == [MissingHsts] || m == [MissingCsp, MissingHsts]
    ensures MissingCsp in m <==> HeaderMissing(h, CspHeader)
    ensures MissingHsts in m <==> HeaderMissing(h, HstsHeader)
  {
    (if HeaderMissing(h, CspHeader) then [MissingCsp] else [])
    + (if HeaderMissing(h, HstsHeader) then [MissingHsts] else [])
  }

  /** The port loop: one entry per configured port, in configured order. */
  function PortEntries(ports: seq<int>, traces: seq<seq<SocketEvent>>): (es: seq<PortEntry>)
    requires |traces| == |ports| && AllSettle(traces)
    ensures |es| == |ports|
    ensures forall i :: 0 <= i < |ports| ==>
              es[i] == PortEntry(ports[i], StatusText(Verdict(traces[i][0])))
    decreases |ports|
  {
    if |ports| == 0 then []
    else
      FirstEventWins(traces[0]);
      [PortEntry(ports[0], StatusText(ScanPort(traces[0]).status))]
      + PortEntries(ports[1..], traces[1..])
  }

  /** The five `try` blocks of the handler. */
  datatype Section = TlsCheck | XssCheck | SqlCheck | HeaderCheck | PortCheck

  const RouteOrder: seq<Section> := [TlsCheck, XssCheck, SqlCheck, HeaderCheck, PortCheck]

  /** The value a field holds after its own section has run on `prior`:
      a failed request leaves `prior`; the two list fields are appended to. */
  function SslAfter(prior: bool, obs: Observations): bool {
    if obs.tls.Ok? then ExpiresAfter(obs.tls.data, obs.now) else prior
  }

  function XssAfter(prior: bool, obs: Observations): bool {
    if obs.xss.Ok? then Includes(obs.xss.data, XssPayload) else prior
  }

  function SqlAfter(prior: bool, obs: Observations): bool {
    if obs.sql.Ok?
    then Includes(obs.sql.data, SqlErrorMarker) || Includes(obs.sql.data, DatabaseMarker)
    else prior
  }

  function HeadersAfter(prior: seq<string>, obs: Observations): seq<string> {
    if obs.headers.Ok? then prior + MissingHeaderList(obs.headers.data) else prior
  }

  function PortsAfter(prior: seq<PortEntry>, obs: Observations): seq<PortEntry>
    requires WellFormed(obs)
  {
    prior + PortEntries(PortsToCheck, obs.portTraces)
  }

  /** Run one section against the report built so far. */
  function RunSection(r: ScanResult, s: Section, obs: Observations): ScanResult
    requires WellFormed(obs)
  {
    match s
    case TlsCheck => r.(sslValid := SslAfter(r.sslValid, obs))
    case XssCheck => r.(xssVulnerable := XssAfter(r.xssVulnerable, obs))
    case SqlCheck => r.(sqlInjectionVulnerable := SqlAfter(r.sqlInjectionVulnerable, obs))
    case HeaderCheck => r.(missingHeaders := HeadersAfter(r.missingHeaders, obs))
    case PortCheck => r.(openPorts := PortsAfter(r.openPorts, obs))
  }

  /** Run sections one after another, left to right. */
  function RunSections(r: ScanResult, order: seq<Section>, obs: Observations): ScanResult
    requires WellFormed(obs)
    decreases |order|
  {
    if |order| == 0 then r else RunSections(RunSection(r, order[0], obs), order[1..], obs)
  }

  /** Running the sections in source order from the all-negative report
      gives each field by its own probe alone. */
  lemma RouteOrderFields(obs: Observations)
    requires WellFormed(obs)
    ensures RunSections(InitialReport, RouteOrder, obs) == ScanResult(
      obs.tls.Ok? && ExpiresAfter(obs.tls.data, obs.now),
      obs.xss.Ok? && Includes(obs.xss.data, XssPayload),
      obs.sql.Ok? && (Includes(obs.sql.data, SqlErrorMarker) || Includes(obs.sql.data, DatabaseMarker)),
      if obs.headers.Ok? then MissingHeaderList(obs.headers.data) else [],
      PortEntries(PortsToCheck, obs.portTraces))
  {
  }

  /** The handler. A falsy `url` is answered with 400 "URL is required";
      otherwise every field of the report follows its own probe's rule. */
  function Post(url: Option<string>, obs: Observations): (resp: Response)
    requires Truthy(url) ==> WellFormed(obs)
    ensures resp.ErrorResponse? <==> !Truthy(url)
    ensures resp.ErrorResponse? ==> resp == ErrorResponse(UrlRequired, BadRequest)
    ensures resp.Report? ==>
      (resp.result.sslValid <==>
         obs.tls.Ok? && obs.tls.data.Instant? && obs.tls.data.millis > obs.now)
    ensures resp.Report? ==>
      (resp.result.xssVulnerable <==> obs.xss.Ok? && Occurs(obs.xss.data, XssPayload))
    ensures resp.Report? ==>
      (resp.result.sqlInjectionVulnerable <==>
         obs.sql.Ok? && (Occurs(obs.sql.data, SqlErrorMarker) || Occurs(obs.sql.data, DatabaseMarker)))
    ensures resp.Report? ==>
      var m := resp.result.missingHeaders;
      && (m == [] || m == [MissingCsp] || m == [MissingHsts] || m == [MissingCsp, MissingHsts])
      && (MissingCsp in m <==> obs.headers.Ok? && HeaderMissing(obs.headers.data, CspHeader))
      && (MissingHsts in m <==> obs.headers.Ok? && HeaderMissing(obs.headers.data, HstsHeader))
    ensures resp.Report? ==>
      var ps := resp.result.openPorts;
      && |ps| == |PortsToCheck|
      && forall i :: 0 <= i < |ps| ==>
           && ps[i].port == PortsToCheck[i]
           && (ps[i].status == "open" <==> obs.portTraces[i][0] == Connect)
           && (ps[i].status == "closed" <==> obs.portTraces[i][0] != Connect)
  {
    if !Truthy(url) then ErrorResponse(UrlRequired, BadRequest)
    else
      var xssBody := if obs.xss.Ok? then obs.xss.data else "";
      var sqlBody := if obs.sql.Ok? then obs.sql.data else "";
      IncludesIffOccurs(xssBody, XssPayload);
      IncludesIffOccurs(sqlBody, SqlErrorMarker);
      IncludesIffOccurs(sqlBody, DatabaseMarker);
      RouteOrderFields(obs);
      Report(RunSections(InitialReport, RouteOrder, obs))
  }

  /** A falsy `url` is rejected before any probe outcome is looked at. */
  lemma MissingUrlConsultsNoProbe(url: Option<string>, obs1: Observations, obs2: Observations)
    requires !Truthy(url)
    ensures Post(url, obs1) == Post(url, obs2) == ErrorResponse(UrlRequired, BadRequest)
  {
  }

  /** A failed request resets nothing but its own field to the default, and
      leaves every other field exactly as it would otherwise have been. */
  lemma FailedProbeChangesOnlyItsField(url: Option<string>, obs: Observations)
    requires Truthy(url) && WellFormed(obs)
    ensures Post(url, obs.(tls := Failed)).result == Post(url, obs).result.(sslValid := false)
    ensures Post(url, obs.(xss := Failed)).result == Post(url, obs).result.(xssVulnerable := false)
    ensures Post(url, obs.(sql := Failed)).result == Post(url, obs).result.(sqlInjectionVulnerable := false)
    ensures Post(url, obs.(headers := Failed)).result == Post(url, obs).result.(missingHeaders := [])
  {
    RouteOrderFields(obs);
    RouteOrderFields(obs.(tls := Failed));
    RouteOrderFields(obs.(xss := Failed));
    RouteOrderFields(obs.(sql := Failed));
    RouteOrderFields(obs.(headers := Failed));
  }

  /** Events a port probe receives after its first one leave the report unchanged. */
  lemma LaterPortEventsIgnored(url: Option<string>, obs: Observations, i: int, later: seq<SocketEvent>)
    requires Truthy(url) && WellFormed(obs) && 0 <= i < |obs.portTraces|
    ensures WellFormed(obs.(portTraces := obs.portTraces[i := obs.portTraces[i] + later]))
    ensures Post(url, obs.(portTraces := obs.portTraces[i := obs.portTraces[i] + later])) == Post(url, obs)
  {
  }

  /** A body without any `<`, such as one that HTML-escapes the payload, is
      not flagged. */
  lemma EscapedPayloadNotFlagged(url: Option<string>, obs: Observations)
    requires Truthy(url) && WellFormed(obs)
    requires obs.xss.Ok? && '<' !in obs.xss.data
    ensures !Post(url, obs).result.xssVulnerable
  {
    FirstCharAbsent(obs.xss.data, XssPayload);
  }

  /** A verbatim echo of the payload is flagged. */
  lemma EchoedPayloadFlagged(url: Option<string>, obs: Observations, before: string, after: string)
    requires Truthy(url) && WellFormed(obs)
    requires obs.xss == Ok(before + XssPayload + after)
    ensures Post(url, obs).result.xssVulnerable
  {
    assert OccursAt(before + XssPayload + after, XssPayload, |before|) by {
      var b := before + XssPayload + after;
      assert b[|before|..|before| + |XssPayload|] == XssPayload;
    }
  }

  /** The header check in its three characteristic situations: nothing
      present, both present, and a present but empty value. */
  lemma HeaderExamples(url: Option<string>, obs: Observations, csp: string, hsts: string)
    requires Truthy(url) && WellFormed(obs)
    requires csp != "" && hsts != ""
    ensures Post(url, obs.(headers := Ok(map[]))).result.missingHeaders
              == [MissingCsp, MissingHsts]
    ensures Post(url, obs.(headers := Ok(map[CspHeader := csp, HstsHeader := hsts]))).result.missingHeaders
              == []
    ensures Post(url, obs.(headers := Ok(map[CspHeader := "", HstsHeader := hsts]))).result.missingHeaders
              == [MissingCsp]
  {
  }

  /** Port 80 accepting and port 443 refusing give the entries in configured order. */
  lemma PortExample(url: Option<string>, obs: Observations, rest80: seq<SocketEvent>, rest443: seq<SocketEvent>)
    requires Truthy(url)
    requires obs.portTraces == [[Connect] + rest80, [Error] + rest443]
    ensures Post(url, obs).result.openPorts == [PortEntry(80, "open"), PortEntry(443, "closed")]
  {
  }
}
