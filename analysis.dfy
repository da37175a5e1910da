/**
 * The parts of Cuckoo's analysis result that the reporter reads. Every key
 * the code reads with `.get` is an `Option`; a list it iterates is a `seq`.
 */
module Analysis {
  import opened Wrappers

  datatype Connection = Connection(src: Option<string>, dst: Option<string>)

  datatype HttpRequest = HttpRequest(host: Option<string>, uri: Option<string>)

  datatype DnsQuery = DnsQuery(request: Option<string>, answers: Option<seq<string>>)

  datatype DomainRecord = DomainRecord(domain: Option<string>, ip: Option<string>)

  datatype Network = Network(
    udp: Option<seq<Connection>>,
    tcp: Option<seq<Connection>>,
    http: Option<seq<HttpRequest>>,
    hosts: Option<seq<string>>,
    dns: Option<seq<DnsQuery>>,
    domains: Option<seq<DomainRecord>>)

  datatype FileDetails = FileDetails(
    name: Option<string>,
    md5: Option<string>,
    sha1: Option<string>,
    sha256: Option<string>,
    size: Option<int>)

  datatype Target = Target(category: Option<string>, file: Option<FileDetails>)

  datatype Info = Info(id: Option<int>, started: Option<string>)

  datatype AnalysisResult = AnalysisResult(target: Option<Target>, info: Option<Info>, network: Option<Network>)

  datatype Protocol = Udp | Tcp

  /** Python truthiness of an optional string: present and non-empty. */
  predicate Truthy(s: Option<string>) {
    s.Some? && |s.value| > 0
  }

  /** `results.get('network', dict()).get(type, dict())`: a missing level reads as empty. */
  function Connections(r: AnalysisResult, proto: Protocol): seq<Connection> {
    match r.network
    case None => []
    case Some(n) => (match proto case Udp => n.udp case Tcp => n.tcp).GetOr([])
  }

  function HttpRequests(r: AnalysisResult): seq<HttpRequest> {
    match r.network
    case None => []
    case Some(n) => n.http.GetOr([])
  }

  function Hosts(r: AnalysisResult): seq<string> {
    match r.network
    case None => []
    case Some(n) => n.hosts.GetOr([])
  }

  function DnsQueries(r: AnalysisResult): seq<DnsQuery> {
    match r.network
    case None => []
    case Some(n) => n.dns.GetOr([])
  }

  function Domains(r: AnalysisResult): seq<DomainRecord> {
    match r.network
    case None => []
    case Some(n) => n.domains.GetOr([])
  }

  /**
   * `create_incident` reads `target.file.name` and `info.id` without guarding
   * the levels above them, and leaves `filename` or `analysis_id` unbound when
   * the value is falsy; this is what it needs to run.
   */
  predicate IncidentDefined(r: AnalysisResult) {
    && r.target.Some? && r.target.value.file.Some? && Truthy(r.target.value.file.value.name)
    && r.info.Some? && r.info.value.id.Some? && r.info.value.id.value != 0
  }

  /** Every entry of an HTTP section carries a `host`. */
  predicate HostsGiven(entries: seq<HttpRequest>) {
    forall k :: 0 <= k < |entries| ==> entries[k].host.Some?
  }

  /** `import_network_http` passes each entry's `host` straight to `re.sub`. */
  predicate HttpHostsPresent(r: AnalysisResult) {
    HostsGiven(HttpRequests(r))
  }

  /** The target holds a file to report: `category == 'file'` and a truthy `file`. */
  predicate IsFileTarget(r: AnalysisResult)
    requires r.target.Some?
  {
    r.target.value.category == Some("file") && r.target.value.file.Some?
  }

  /** `import_file` reads `target` unguarded, and `info` once the target is a file. */
  predicate FileImportDefined(r: AnalysisResult) {
    r.target.Some? && (IsFileTarget(r) ==> r.info.Some?)
  }
}
