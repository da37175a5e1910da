/**
 * What each extractor attempts to upload, as functions of the analysis
 * result. A network extractor walks one section and attempts a fixed list of
 * raw values per entry, whatever the outcome of the earlier attempts; the
 * file extractor builds at most one hash-bearing indicator.
 */
module Extraction {
  import opened Wrappers
  import opened Text
  import opened Normalizer
  import opened ThreatConnect
  import opened Analysis

  /** `import_network`: a connection's `src`, then its `dst`. */
  function ConnectionCandidates(c: Connection): (r: seq<Option<string>>)
    ensures |r| == 2 && r[0] == c.src && r[1] == c.dst
  {
    [c.src, c.dst]
  }

  /**
   * `import_network_http`: the port-stripped host, only when it is an address
   * literal, then the `uri`, only when it is truthy.
   */
  function HttpCandidates(e: HttpRequest): (r: seq<Option<string>>)
    requires e.host.Some?
    ensures var host := StripPorts(e.host.value);
            && |r| == (if Ip(host) then 1 else 0) + (if Truthy(e.uri) then 1 else 0)
            && (Ip(host) ==> r[0] == Some(host))
            && (Truthy(e.uri) ==> r[|r| - 1] == e.uri)
            && forall k :: 0 <= k < |r| ==> r[k] == e.uri || (Ip(host) && r[k] == Some(host))
  {
    var host := StripPorts(e.host.value);
    (if Ip(host) then [Some(host)] else []) + (if Truthy(e.uri) then [e.uri] else [])
  }

  /** `import_network_hosts`: both branches of the address test upload the host as it is. */
  function HostCandidates(host: string): seq<Option<string>> {
    [Some(host)]
  }

  /** The list's elements as present values. */
  function Present(s: seq<string>): (r: seq<Option<string>>)
    ensures |r| == |s| && forall i :: 0 <= i < |s| ==> r[i] == Some(s[i])
  {
    seq(|s|, i requires 0 <= i < |s| => Some(s[i]))
  }

  /** `import_network_dns`: the `request`, then every answer in order (a missing list is empty). */
  function DnsCandidates(q: DnsQuery): (r: seq<Option<string>>)
    ensures |r| == 1 + |q.answers.GetOr([])| && r[0] == q.request
    ensures forall j :: 0 <= j < |q.answers.GetOr([])| ==> r[j + 1] == Some(q.answers.GetOr([])[j])
    ensures q.answers.None? ==> r == [q.request]
  {
    var answers := Present(q.answers.GetOr([]));
    assert forall j :: 0 <= j < |answers| ==> ([q.request] + answers)[j + 1] == answers[j];
    [q.request] + answers
  }

  /** `import_network_domains`: the `ip` if truthy, then the `domain` if truthy. */
  function DomainCandidates(d: DomainRecord): (r: seq<Option<string>>)
    ensures |r| == (if Truthy(d.ip) then 1 else 0) + (if Truthy(d.domain) then 1 else 0)
    ensures forall k :: 0 <= k < |r| ==> Truthy(r[k])
    ensures Truthy(d.ip) ==> r[0] == d.ip
    ensures Truthy(d.domain) ==> r[|r| - 1] == d.domain
  {
    (if Truthy(d.ip) then [d.ip] else []) + (if Truthy(d.domain) then [d.domain] else [])
  }

  /** The attempts of a connection list: each connection's attempts, in list order. */
  function ConnectionsAttempted(conns: seq<Connection>): seq<Option<string>>
    decreases |conns|
  {
    if |conns| == 0 then [] else ConnectionsAttempted(conns[..|conns| - 1]) + ConnectionCandidates(conns[|conns| - 1])
  }

  function HttpAttempted(entries: seq<HttpRequest>): seq<Option<string>>
    requires HostsGiven(entries)
    decreases |entries|
  {
    if |entries| == 0 then [] else HttpAttempted(entries[..|entries| - 1]) + HttpCandidates(entries[|entries| - 1])
  }

  function HostsAttempted(hosts: seq<string>): seq<Option<string>>
    decreases |hosts|
  {
    if |hosts| == 0 then [] else HostsAttempted(hosts[..|hosts| - 1]) + HostCandidates(hosts[|hosts| - 1])
  }

  function DnsAttempted(queries: seq<DnsQuery>): seq<Option<string>>
    decreases |queries|
  {
    if |queries| == 0 then [] else DnsAttempted(queries[..|queries| - 1]) + DnsCandidates(queries[|queries| - 1])
  }

  /** One more query appends its own attempts. */
  lemma DnsAttemptedSnoc(queries: seq<DnsQuery>, i: nat)
    requires i < |queries|
    ensures DnsAttempted(queries[..i + 1]) == DnsAttempted(queries[..i]) + DnsCandidates(queries[i])
  {
    assert queries[..i + 1][..i] == queries[..i];
  }

  function DomainsAttempted(domains: seq<DomainRecord>): seq<Option<string>>
    decreases |domains|
  {
    if |domains| == 0 then [] else DomainsAttempted(domains[..|domains| - 1]) + DomainCandidates(domains[|domains| - 1])
  }

  /** The raw values the network extractors attempt, in the order `run` calls them. */
  function NetworkCandidates(r: AnalysisResult): seq<Option<string>>
    requires HttpHostsPresent(r)
  {
    ConnectionsAttempted(Connections(r, Udp))
    + ConnectionsAttempted(Connections(r, Tcp))
    + HttpAttempted(HttpRequests(r))
    + HostsAttempted(Hosts(r))
    + DnsAttempted(DnsQueries(r))
    + DomainsAttempted(Domains(r))
  }

  /** What `upload_indicator(raw)` commits: the raw value, owned by `owner`, associated with incident `id`. */
  function PlainUpload(raw: Option<string>, owner: string, id: int): IndicatorState {
    IndicatorState(raw, owner, [], None, [], Some(id))
  }

  /** What the upload sink commits for each raw value, in order. */
  function Uploads(raws: seq<Option<string>>, owner: string, id: int): seq<IndicatorState>
    decreases |raws|
  {
    if |raws| == 0 then [] else Uploads(raws[..|raws| - 1], owner, id) + [PlainUpload(raws[|raws| - 1], owner, id)]
  }

  lemma UploadsSnoc(raws: seq<Option<string>>, raw: Option<string>, owner: string, id: int)
    ensures Uploads(raws + [raw], owner, id) == Uploads(raws, owner, id) + [PlainUpload(raw, owner, id)]
  {
    assert (raws + [raw])[..|raws|] == raws;
  }

  lemma {:induction false} UploadsAppend(a: seq<Option<string>>, b: seq<Option<string>>, owner: string, id: int)
    ensures Uploads(a + b, owner, id) == Uploads(a, owner, id) + Uploads(b, owner, id)
    decreases |b|
  {
    if |b| == 0 {
      assert a + b == a;
    } else {
      var init := b[..|b| - 1];
      UploadsAppend(a, init, owner, id);
      assert a + b == (a + init) + [b[|b| - 1]];
      UploadsSnoc(a + init, b[|b| - 1], owner, id);
    }
  }

  /** A log holding the uploads of `raws` after `start` holds those of `raws + [raw]` once `raw` is committed. */
  lemma UploadsExtend(log: seq<IndicatorState>, start: seq<IndicatorState>, raws: seq<Option<string>>,
                      raw: Option<string>, owner: string, id: int)
    requires log == start + Uploads(raws, owner, id)
    ensures log + [PlainUpload(raw, owner, id)] == start + Uploads(raws + [raw], owner, id)
  {
    UploadsSnoc(raws, raw, owner, id);
  }

  /** The same, once the uploads of a whole list `more` are committed. */
  lemma UploadsExtendBy(log: seq<IndicatorState>, start: seq<IndicatorState>, raws: seq<Option<string>>,
                        more: seq<Option<string>>, owner: string, id: int)
    requires log == start + Uploads(raws, owner, id)
    ensures log + Uploads(more, owner, id) == start + Uploads(raws + more, owner, id)
  {
    UploadsAppend(raws, more, owner, id);
  }

  /** The i-th upload commits the i-th raw value, owned by `owner` and associated with incident `id`. */
  lemma {:induction false} UploadsAt(raws: seq<Option<string>>, owner: string, id: int)
    ensures |Uploads(raws, owner, id)| == |raws|
    ensures forall i :: 0 <= i < |raws| ==> Uploads(raws, owner, id)[i] == PlainUpload(raws[i], owner, id)
    decreases |raws|
  {
    if |raws| > 0 {
      var init := raws[..|raws| - 1];
      UploadsAt(init, owner, id);
      forall i | 0 <= i < |init|
        ensures raws[i] == init[i]
      {
      }
    }
  }

  /** Python's `s[:10]`. */
  function FirstTen(s: string): (r: string)
    ensures |r| == (if |s| < 10 then |s| else 10) && r == s[..|r|]
  {
    if |s| <= 10 then s else s[..10]
  }

  /**
   * `import_file`: for a file target, one indicator keyed by the MD5, with
   * SHA1 then SHA256 set, the size, a file occurrence (name, first ten
   * characters of `info.started`) when `started` is truthy, and the incident.
   */
  function FileUploads(r: AnalysisResult, owner: string, id: int): (u: seq<IndicatorState>)
    requires FileImportDefined(r)
    ensures |u| <= 1 && (|u| == 1 <==> IsFileTarget(r))
    ensures |u| == 1 ==>
              var f := r.target.value.file.value;
              var started := r.info.value.started;
              && u[0].value == f.md5 && u[0].hashes == [f.sha1, f.sha256] && u[0].size == f.size
              && u[0].owner == owner && u[0].incident == Some(id)
              && |u[0].occurrences| == (if Truthy(started) then 1 else 0)
              && (Truthy(started) ==> u[0].occurrences[0].fileName == f.name
                                      && u[0].occurrences[0].date <= started.value
                                      && |u[0].occurrences[0].date| == (if |started.value| < 10 then |started.value| else 10))
  {
    if !IsFileTarget(r) then []
    else
      var f := r.target.value.file.value;
      var started := r.info.value.started;
      var occurrences := if Truthy(started) then [Occurrence(f.name, FirstTen(started.value))] else [];
      [IndicatorState(f.md5, owner, [f.sha1, f.sha256], f.size, occurrences, Some(id))]
  }

  /** Every connection gives exactly two attempts, its `src` at `2i` and its `dst` at `2i + 1`. */
  lemma {:induction false} ConnectionAttemptsPaired(conns: seq<Connection>)
    ensures |ConnectionsAttempted(conns)| == 2 * |conns|
    ensures forall i :: 0 <= i < |conns| ==>
              ConnectionsAttempted(conns)[2 * i] == conns[i].src &&
              ConnectionsAttempted(conns)[2 * i + 1] == conns[i].dst
    decreases |conns|
  {
    if |conns| > 0 {
      var init := conns[..|conns| - 1];
      ConnectionAttemptsPaired(init);
      forall i | 0 <= i < |init|
        ensures conns[i] == init[i]
      {
      }
    }
  }

  /** A missing `network`, or a missing protocol section, gives no attempts at all. */
  lemma AbsentSectionsNoAttempts(r: AnalysisResult, proto: Protocol)
    ensures r.network.None? ==> HttpHostsPresent(r) && NetworkCandidates(r) == []
    ensures r.network.Some? && (match proto case Udp => r.network.value.udp case Tcp => r.network.value.tcp).None?
            ==> ConnectionsAttempted(Connections(r, proto)) == []
  {
  }

  /** Every entry of `hosts` gets exactly one attempt with the unchanged host string. */
  lemma {:induction false} HostAttempts(hosts: seq<string>)
    ensures HostsAttempted(hosts) == Present(hosts)
    decreases |hosts|
  {
    if |hosts| > 0 {
      var init := hosts[..|hosts| - 1];
      HostAttempts(init);
      assert Present(hosts) == Present(init) + [Some(hosts[|hosts| - 1])];
    }
  }

  /** Every attempt of the domains section is a truthy `ip` or `domain`, at most two per record. */
  lemma {:induction false} DomainAttemptsTruthy(domains: seq<DomainRecord>)
    ensures |DomainsAttempted(domains)| <= 2 * |domains|
    ensures forall k :: 0 <= k < |DomainsAttempted(domains)| ==> Truthy(DomainsAttempted(domains)[k])
    decreases |domains|
  {
    if |domains| > 0 {
      var init := domains[..|domains| - 1];
      DomainAttemptsTruthy(init);
      var prefix := DomainsAttempted(init);
      var last := DomainCandidates(domains[|domains| - 1]);
      forall k | 0 <= k < |prefix + last|
        ensures Truthy((prefix + last)[k])
      {
        if k >= |prefix| {
          assert (prefix + last)[k] == last[k - |prefix|];
        }
      }
    }
  }

  /** An HTTP entry whose host is `address:port` uploads the bare address, then the URI when truthy. */
  lemma HttpAddressWithPort(address: string, port: nat, uri: Option<string>)
    requires Ip(address)
    ensures HttpCandidates(HttpRequest(Some(address + ":" + Decimal(port)), uri))
            == [Some(address)] + (if Truthy(uri) then [uri] else [])
  {
    StripAddressWithPort(address, port);
  }

  /** An HTTP host that is not an address after stripping is never uploaded; only the URI may be. */
  lemma HttpNameNotUploaded(e: HttpRequest)
    requires e.host.Some? && !Ip(StripPorts(e.host.value))
    ensures HttpCandidates(e) == if Truthy(e.uri) then [e.uri] else []
  {
  }
}
