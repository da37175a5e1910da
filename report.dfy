/**
 * The reporting plugin: `ThreatConnectReport` builds one incident for the
 * analysis, then runs the extractors, each of which sends its candidates
 * through the shared upload sink with a failure boundary around every call.
 */
module Report {
  import opened Wrappers
  import opened Text
  import opened Normalizer
  import opened ThreatConnect
  import opened Analysis
  import opened Extraction

  const AnalysisIdType := "Analysis ID"
  const SourceType := "Source"
  const DoNotShare := "DO NOT SHARE"

  /** How a call ends: it returns, or raises `CuckooReportError` with a message. */
  datatype Status = Normal | ReportError(message: string)

  /** The reporter's configuration options. */
  datatype Options = Options(
    apiAccessId: string,
    apiSecretKey: string,
    apiBaseUrl: string,
    targetSource: string,
    reportLinkTemplate: string)

  /** A commit failure the platform reports because the value is on its exclusion list. */
  predicate IsExclusion(message: string)
    ensures IsExclusion(message) <==> exists i :: OccursAt(message, "exclusion list", i)
  {
    ContainsIffOccurs(message, "exclusion list");
    Contains(message, "exclusion list")
  }

  /**
   * How `upload_indicator` and `import_file` end after the commit: a success
   * or an exclusion-list failure returns, any other failure raises.
   */
  function IndicatorCommitStatus(o: Outcome): (st: Status)
    ensures st == Normal <==> o.Committed? || IsExclusion(o.message)
    ensures st.ReportError? ==> st.message == "Failed to commit indicator: " + o.message
  {
    match o
    case Committed => Normal
    case Failed(m) => if IsExclusion(m) then Normal else ReportError("Failed to commit indicator: " + m)
  }

  /** Any failure message that mentions the exclusion list is swallowed. */
  lemma ExclusionSwallowed(prefix: string, suffix: string)
    ensures IndicatorCommitStatus(Failed(prefix + "exclusion list" + suffix)) == Normal
  {
    ContainsInfix(prefix, "exclusion list", suffix);
  }

  /** How a commit handler ends: it returns, or raises one of two exceptions. */
  datatype AsWrittenExit = Returns | RaisesReportError(message: string) | RaisesTypeError

  /** The per-item handlers catch `(CuckooReportError, RuntimeError)`, and so does `run` around `import_file`. */
  predicate ContainedByHandlers(x: AsWrittenExit) {
    !x.RaisesTypeError?
  }

  /**
   * The commit handler as written: it passes the exception object itself to
   * `re.search`, which raises `TypeError` for any failure before the message
   * is looked at.
   */
  function AsWrittenCommitExit(o: Outcome): (x: AsWrittenExit)
    ensures ContainedByHandlers(x) <==> o.Committed?
    ensures !x.RaisesReportError?
  {
    match o
    case Committed => Returns
    case Failed(_) => RaisesTypeError
  }

  /**
   * A commit that fails with an exclusion-list message escapes every handler
   * as written, so one excluded indicator ends the whole run; the intended
   * classification returns normally.
   */
  lemma ExclusionEscapesAsWritten(prefix: string, suffix: string)
    ensures var o := Failed(prefix + "exclusion list" + suffix);
            && AsWrittenCommitExit(o) == RaisesTypeError && !ContainedByHandlers(AsWrittenCommitExit(o))
            && IndicatorCommitStatus(o) == Normal
  {
    ExclusionSwallowed(prefix, suffix);
  }

  /**
   * `'Cuckoo Analysis {}: {}'.format(date, filename)`: the title reads back as
   * the fixed prefix, the date, the `: ` separator and the file name.
   */
  function IncidentTitle(date: string, filename: string): (t: string)
    ensures |t| == 18 + |date| + |filename|
    ensures t[..16] == "Cuckoo Analysis " && t[16..16 + |date|] == date
    ensures t[16 + |date|..18 + |date|] == ": " && t[18 + |date|..] == filename
  {
    "Cuckoo Analysis " + date + ": " + filename
  }

  predicate IsSensitive(attrType: string) {
    attrType == AnalysisIdType || attrType == SourceType
  }

  function LabelIfSensitive(a: Attribute): Attribute {
    if IsSensitive(a.attrType) then a.(securityLabels := a.securityLabels + [DoNotShare]) else a
  }

  /** The labelling loop: sensitive attributes gain `DO NOT SHARE`, all others are left as they are. */
  function LabelSensitive(attrs: seq<Attribute>): (r: seq<Attribute>)
    ensures |r| == |attrs|
    ensures forall k :: 0 <= k < |attrs| ==> r[k].attrType == attrs[k].attrType && r[k].value == attrs[k].value
    ensures forall k :: 0 <= k < |attrs| && IsSensitive(attrs[k].attrType) ==>
              r[k].securityLabels == attrs[k].securityLabels + [DoNotShare]
    ensures forall k :: 0 <= k < |attrs| && !IsSensitive(attrs[k].attrType) ==> r[k] == attrs[k]
  {
    seq(|attrs|, k requires 0 <= k < |attrs| => LabelIfSensitive(attrs[k]))
  }

  /** The incident as first committed: title, owner, event date and the two provenance attributes. */
  function DraftIncident(r: AnalysisResult, owner: string, template: string, date: string, nowIso: string,
                         format: (string, int) -> string): (d: IncidentState)
    requires IncidentDefined(r)
    ensures d.title == IncidentTitle(date, r.target.value.file.value.name.value)
    ensures d.owner == owner && d.eventDate == Some(nowIso) && |d.attributes| == 2
    ensures d.attributes[0].attrType == AnalysisIdType && d.attributes[1].attrType == SourceType
    ensures d.attributes[0].value == IntValue(r.info.value.id.value)
    ensures d.attributes[1].value == TextValue(format(template, r.info.value.id.value))
    ensures forall k :: 0 <= k < |d.attributes| ==> IsSensitive(d.attributes[k].attrType) && d.attributes[k].securityLabels == []
  {
    var id := r.info.value.id.value;
    IncidentState(IncidentTitle(date, r.target.value.file.value.name.value), owner, Some(nowIso),
                  [Attribute(AnalysisIdType, IntValue(id), []), Attribute(SourceType, TextValue(format(template, id)), [])])
  }

  /** The draft as committed the second time: its reloaded attributes, labelled. */
  function LabelledIncident(draft: IncidentState, stored: seq<Attribute>): (l: IncidentState)
    ensures l.title == draft.title && l.owner == draft.owner && l.eventDate == draft.eventDate
    ensures |l.attributes| == |stored|
    ensures forall k :: 0 <= k < |stored| ==>
              l.attributes[k].attrType == stored[k].attrType && l.attributes[k].value == stored[k].value
    ensures forall k :: 0 <= k < |stored| && IsSensitive(stored[k].attrType) ==>
              l.attributes[k].securityLabels == stored[k].securityLabels + [DoNotShare]
    ensures forall k :: 0 <= k < |stored| && !IsSensitive(stored[k].attrType) ==> l.attributes[k] == stored[k]
  {
    draft.(attributes := LabelSensitive(stored))
  }

  /** Every indicator `run` attempts once the incident exists, in order. */
  function RunUploads(r: AnalysisResult, owner: string, id: int): seq<IndicatorState>
    requires HttpHostsPresent(r) && FileImportDefined(r)
  {
    Uploads(NetworkCandidates(r), owner, id) + FileUploads(r, owner, id)
  }

  /** The run's attempts are the extractors' attempts in the order udp, tcp, http, hosts, dns, domains, file. */
  lemma RunUploadsInOrder(start: seq<IndicatorState>, r: AnalysisResult, owner: string, id: int)
    requires HttpHostsPresent(r) && FileImportDefined(r)
    ensures start + RunUploads(r, owner, id)
            == start
               + Uploads(ConnectionsAttempted(Connections(r, Udp)), owner, id)
               + Uploads(ConnectionsAttempted(Connections(r, Tcp)), owner, id)
               + Uploads(HttpAttempted(HttpRequests(r)), owner, id)
               + Uploads(HostsAttempted(Hosts(r)), owner, id)
               + Uploads(DnsAttempted(DnsQueries(r)), owner, id)
               + Uploads(DomainsAttempted(Domains(r)), owner, id)
               + FileUploads(r, owner, id)
  {
    var udp := ConnectionsAttempted(Connections(r, Udp));
    var tcp := ConnectionsAttempted(Connections(r, Tcp));
    var http := HttpAttempted(HttpRequests(r));
    var hosts := HostsAttempted(Hosts(r));
    var dns := DnsAttempted(DnsQueries(r));
    var domains := DomainsAttempted(Domains(r));
    UploadsExtendBy(start + Uploads(udp, owner, id), start, udp, tcp, owner, id);
    UploadsExtendBy(start + Uploads(udp, owner, id) + Uploads(tcp, owner, id), start, udp + tcp, http, owner, id);
    UploadsExtendBy(start + Uploads(udp, owner, id) + Uploads(tcp, owner, id) + Uploads(http, owner, id),
                    start, udp + tcp + http, hosts, owner, id);
    UploadsExtendBy(start + Uploads(udp, owner, id) + Uploads(tcp, owner, id) + Uploads(http, owner, id)
                    + Uploads(hosts, owner, id), start, udp + tcp + http + hosts, dns, owner, id);
    UploadsExtendBy(start + Uploads(udp, owner, id) + Uploads(tcp, owner, id) + Uploads(http, owner, id)
                    + Uploads(hosts, owner, id) + Uploads(dns, owner, id),
                    start, udp + tcp + http + hosts + dns, domains, owner, id);
  }

  /** Every indicator of a run is owned by the source and associated with the run's incident. */
  lemma RunUploadsAssociated(r: AnalysisResult, owner: string, id: int)
    requires HttpHostsPresent(r) && FileImportDefined(r)
    ensures forall k :: 0 <= k < |RunUploads(r, owner, id)| ==>
              RunUploads(r, owner, id)[k].incident == Some(id) && RunUploads(r, owner, id)[k].owner == owner
  {
    var net: seq<IndicatorState> := Uploads(NetworkCandidates(r), owner, id);
    var file: seq<IndicatorState> := FileUploads(r, owner, id);
    UploadsAt(NetworkCandidates(r), owner, id);
    forall k | 0 <= k < |net + file|
      ensures (net + file)[k].incident == Some(id) && (net + file)[k].owner == owner
    {
      if k >= |net| {
        assert (net + file)[k] == file[k - |net|];
      }
    }
  }

  /** A result with no network section attempts at most the file indicator. */
  lemma NoNetworkOnlyFile(r: AnalysisResult, owner: string, id: int)
    requires r.network.None? && FileImportDefined(r)
    ensures HttpHostsPresent(r) && RunUploads(r, owner, id) == FileUploads(r, owner, id)
  {
    AbsentSectionsNoAttempts(r, Udp);
  }

  /**
   * A file target whose network section holds only one DNS query with one
   * answer gives the request, the answer and the file indicator, in that order;
   * with a named file and a non-zero id the incident can be built as well.
   */
  lemma DnsAndFileScenario(f: FileDetails, started: string, request: string, answer: string, owner: string, id: int)
    ensures var r := AnalysisResult(Some(Target(Some("file"), Some(f))), Some(Info(Some(42), Some(started))),
                                    Some(Network(None, None, None, None, Some([DnsQuery(Some(request), Some([answer]))]), None)));
            && (Truthy(f.name) ==> IncidentDefined(r))
            && HttpHostsPresent(r) && FileImportDefined(r)
            && RunUploads(r, owner, id) == [
                 PlainUpload(Some(request), owner, id),
                 PlainUpload(Some(answer), owner, id),
                 IndicatorState(f.md5, owner, [f.sha1, f.sha256], f.size,
                                if started == "" then [] else [Occurrence(f.name, FirstTen(started))], Some(id))]
  {
    var q := DnsQuery(Some(request), Some([answer]));
    var r := AnalysisResult(Some(Target(Some("file"), Some(f))), Some(Info(Some(42), Some(started))),
                            Some(Network(None, None, None, None, Some([q]), None)));
    var raws := [Some(request), Some(answer)];
    assert DnsCandidates(q) == raws;
    assert [q][..0] == [];
    assert DnsAttempted([q]) == raws;
    assert Connections(r, Udp) == [] && Connections(r, Tcp) == [] && HttpRequests(r) == [];
    assert Hosts(r) == [] && Domains(r) == [] && DnsQueries(r) == [q];
    assert NetworkCandidates(r) == raws;
    UploadsAt(raws, owner, id);
    assert Uploads(raws, owner, id) == [PlainUpload(raws[0], owner, id), PlainUpload(raws[1], owner, id)];
  }

  /**
   * The labelling loop of `create_incident`: every loaded attribute of type
   * `Analysis ID` or `Source` gains `DO NOT SHARE`, in place.
   */
  method LabelAttributes(incident: IncidentResource)
    modifies incident
    ensures incident.State() == LabelledIncident(old(incident.State()), old(incident.attributes))
  {
    ghost var loaded := incident.attributes;
    var i := 0;
    while i < |incident.attributes|
      invariant 0 <= i <= |loaded| == |incident.attributes|
      invariant incident.State().(attributes := []) == old(incident.State()).(attributes := [])
      invariant forall k :: 0 <= k < i ==> incident.attributes[k] == LabelIfSensitive(loaded[k])
      invariant forall k :: i <= k < |loaded| ==> incident.attributes[k] == loaded[k]
    {
      if IsSensitive(incident.attributes[i].attrType) {
        incident.AddSecurityLabel(i, DoNotShare);
      }
      i := i + 1;
    }
    assert incident.attributes == LabelSensitive(loaded);
  }

  class ThreatConnectReport {
    var targetSource: string
    var tc: Client?
    var reportLinkTemplate: string
    var results: AnalysisResult
    var incidentId: int

    constructor ()
      ensures tc == null
    {
      targetSource := "";
      tc := null;
      reportLinkTemplate := "";
      results := AnalysisResult(None, None, None);
      incidentId := 0;
    }

    /**
     * `create_incident`: builds and commits the incident, then reloads its
     * attributes, labels the sensitive ones and commits again. The second
     * commit is attempted only after the first succeeds; either failing
     * raises and yields no id.
     */
    method CreateIncident(dateToday: string, nowIso: string, format: (string, int) -> string)
      returns (r: Result<int>)
      requires tc != null && IncidentDefined(results)
      modifies tc
      ensures tc.uploads == old(tc.uploads)
      ensures var draft := DraftIncident(results, targetSource, reportLinkTemplate, dateToday, nowIso, format);
              var first := tc.oracle(old(tc.commits));
              var second := tc.oracle(old(tc.commits) + 1);
              if first.Failed? then
                && r == Failure("Failed to commit incident: " + first.message)
                && tc.incidentCommits == old(tc.incidentCommits) + [draft]
                && tc.commits == old(tc.commits) + 1
              else
                && tc.incidentCommits == old(tc.incidentCommits) + [draft, LabelledIncident(draft, tc.storedAttributes)]
                && tc.commits == old(tc.commits) + 2
                && r == if second.Failed? then Failure("Failed to commit incident: " + second.message)
                        else Success(tc.assignedIncidentId)
    {
      var filename := results.target.value.file.value.name.value;
      var title := IncidentTitle(dateToday, filename);
      var incident := new IncidentResource(title, targetSource);
      incident.SetEventDate(nowIso);
      var analysisId := results.info.value.id.value;
      incident.AddAttribute(AnalysisIdType, IntValue(analysisId));
      var reportLink := format(reportLinkTemplate, analysisId);
      incident.AddAttribute(SourceType, TextValue(reportLink));
      ghost var draft := incident.State();
      assert draft == DraftIncident(results, targetSource, reportLinkTemplate, dateToday, nowIso, format);
      var o := tc.CommitIncident(incident.State());
      if o.Failed? {
        r := Failure("Failed to commit incident: " + o.message);
        return;
      }
      incident.LoadAttributes(tc);
      LabelAttributes(incident);
      o := tc.CommitIncident(incident.State());
      if o.Failed? {
        r := Failure("Failed to commit incident: " + o.message);
      } else {
        r := Success(tc.assignedIncidentId);
      }
    }

    /** `upload_indicator`: one indicator, associated with the incident before it is committed. */
    method UploadIndicator(raw: Option<string>) returns (st: Status)
      requires tc != null
      modifies tc
      ensures tc.uploads == old(tc.uploads) + [PlainUpload(raw, targetSource, incidentId)]
      ensures tc.incidentCommits == old(tc.incidentCommits) && tc.commits == old(tc.commits) + 1
      ensures st == IndicatorCommitStatus(tc.oracle(old(tc.commits)))
    {
      var indicator := new IndicatorResource(raw, targetSource);
      indicator.AssociateIncident(incidentId);
      var o := tc.CommitIndicator(indicator.State());
      st := IndicatorCommitStatus(o);
    }

    /** One connection of `import_network`'s loop: its `src`, then its `dst`, whatever each upload's outcome. */
    method UploadConnection(c: Connection)
      requires tc != null
      modifies tc
      ensures tc.uploads == old(tc.uploads) + Uploads(ConnectionCandidates(c), targetSource, incidentId)
      ensures tc.commits == old(tc.commits) + |ConnectionCandidates(c)|
      ensures tc.incidentCommits == old(tc.incidentCommits)
    {
      ghost var start := tc.uploads;
      ghost var log := tc.uploads;
      var srcStatus := UploadIndicator(c.src);
      UploadsExtend(log, start, [], c.src, targetSource, incidentId);
      log := tc.uploads;
      var dstStatus := UploadIndicator(c.dst);
      UploadsExtend(log, start, [c.src], c.dst, targetSource, incidentId);
      assert [c.src] + [c.dst] == ConnectionCandidates(c);
    }

    /** `import_network(type)`: every connection of the protocol's section, in order. */
    method ImportNetwork(proto: Protocol)
      requires tc != null
      modifies tc
      ensures var attempted := ConnectionsAttempted(Connections(results, proto));
              && tc.uploads == old(tc.uploads) + Uploads(attempted, targetSource, incidentId)
              && tc.commits == old(tc.commits) + |attempted|
      ensures tc.incidentCommits == old(tc.incidentCommits)
    {
      var conns := Connections(results, proto);
      var client, owner, id := tc, targetSource, incidentId;
      ghost var start, startCommits := client.uploads, client.commits;
      var i := 0;
      while i < |conns|
        invariant 0 <= i <= |conns|
        invariant client.uploads == start + Uploads(ConnectionsAttempted(conns[..i]), owner, id)
        invariant client.commits == startCommits + |ConnectionsAttempted(conns[..i])|
        invariant client.incidentCommits == old(client.incidentCommits)
      {
        ghost var log := client.uploads;
        UploadConnection(conns[i]);
        UploadsExtendBy(log, start, ConnectionsAttempted(conns[..i]), ConnectionCandidates(conns[i]), owner, id);
        assert conns[..i + 1][..i] == conns[..i];
        i := i + 1;
      }
      assert conns[..i] == conns;
    }

    /** One entry of `import_network_http`'s loop: the stripped host when it is an address, then the URI when truthy. */
    method UploadHttpEntry(e: HttpRequest)
      requires tc != null && e.host.Some?
      modifies tc
      ensures tc.uploads == old(tc.uploads) + Uploads(HttpCandidates(e), targetSource, incidentId)
      ensures tc.commits == old(tc.commits) + |HttpCandidates(e)|
      ensures tc.incidentCommits == old(tc.incidentCommits)
    {
      ghost var start := tc.uploads;
      ghost var attempted: seq<Option<string>> := [];
      var host := StripPorts(e.host.value);
      if Ip(host) {
        ghost var log := tc.uploads;
        var hostStatus := UploadIndicator(Some(host));
        UploadsExtend(log, start, attempted, Some(host), targetSource, incidentId);
        attempted := attempted + [Some(host)];
      }
      if Truthy(e.uri) {
        ghost var log := tc.uploads;
        var uriStatus := UploadIndicator(e.uri);
        UploadsExtend(log, start, attempted, e.uri, targetSource, incidentId);
        attempted := attempted + [e.uri];
      }
      assert attempted == HttpCandidates(e);
    }

    /** `import_network_http`: every entry of the HTTP section, in order. */
    method ImportNetworkHttp()
      requires tc != null && HttpHostsPresent(results)
      modifies tc
      ensures var attempted := HttpAttempted(HttpRequests(results));
              && tc.uploads == old(tc.uploads) + Uploads(attempted, targetSource, incidentId)
              && tc.commits == old(tc.commits) + |attempted|
      ensures tc.incidentCommits == old(tc.incidentCommits)
    {
      var entries := HttpRequests(results);
      var client, owner, id := tc, targetSource, incidentId;
      ghost var start, startCommits := client.uploads, client.commits;
      var i := 0;
      while i < |entries|
        invariant 0 <= i <= |entries|
        invariant HostsGiven(entries[..i])
        invariant client.uploads == start + Uploads(HttpAttempted(entries[..i]), owner, id)
        invariant client.commits == startCommits + |HttpAttempted(entries[..i])|
        invariant client.incidentCommits == old(client.incidentCommits)
      {
        ghost var log := client.uploads;
        UploadHttpEntry(entries[i]);
        UploadsExtendBy(log, start, HttpAttempted(entries[..i]), HttpCandidates(entries[i]), owner, id);
        assert entries[..i + 1][..i] == entries[..i];
        assert HostsGiven(entries[..i + 1]);
        i := i + 1;
      }
      assert entries[..i] == entries;
    }

    /** One host of `import_network_hosts`'s loop: both branches of the address test upload it unchanged. */
    method UploadHost(host: string)
      requires tc != null
      modifies tc
      ensures tc.uploads == old(tc.uploads) + Uploads(HostCandidates(host), targetSource, incidentId)
      ensures tc.commits == old(tc.commits) + |HostCandidates(host)|
      ensures tc.incidentCommits == old(tc.incidentCommits)
    {
      ghost var start := tc.uploads;
      if Ip(host) {
        var addressStatus := UploadIndicator(Some(host));
      } else {
        var nameStatus := UploadIndicator(Some(host));
      }
      UploadsExtend(start, start, [], Some(host), targetSource, incidentId);
    }

    /** `import_network_hosts`: every entry of the hosts section, in order. */
    method ImportNetworkHosts()
      requires tc != null
      modifies tc
      ensures var attempted := HostsAttempted(Hosts(results));
              && tc.uploads == old(tc.uploads) + Uploads(attempted, targetSource, incidentId)
              && tc.commits == old(tc.commits) + |attempted|
      ensures tc.incidentCommits == old(tc.incidentCommits)
    {
      var hosts := Hosts(results);
      var client, owner, id := tc, targetSource, incidentId;
      ghost var start, startCommits := client.uploads, client.commits;
      var i := 0;
      while i < |hosts|
        invariant 0 <= i <= |hosts|
        invariant client.uploads == start + Uploads(HostsAttempted(hosts[..i]), owner, id)
        invariant client.commits == startCommits + |HostsAttempted(hosts[..i])|
        invariant client.incidentCommits == old(client.incidentCommits)
      {
        ghost var log := client.uploads;
        UploadHost(hosts[i]);
        UploadsExtendBy(log, start, HostsAttempted(hosts[..i]), HostCandidates(hosts[i]), owner, id);
        assert hosts[..i + 1][..i] == hosts[..i];
        i := i + 1;
      }
      assert hosts[..i] == hosts;
    }

    /** One query of `import_network_dns`'s loop: its request, then each of its answers in order. */
    method UploadDnsQuery(q: DnsQuery)
      requires tc != null
      modifies tc
      ensures tc.uploads == old(tc.uploads) + Uploads(DnsCandidates(q), targetSource, incidentId)
      ensures tc.commits == old(tc.commits) + |DnsCandidates(q)|
      ensures tc.incidentCommits == old(tc.incidentCommits)
    {
      var client, owner, id := tc, targetSource, incidentId;
      ghost var start, startCommits := client.uploads, client.commits;
      var requestStatus := UploadIndicator(q.request);
      UploadsExtend(start, start, [], q.request, owner, id);
      var answers := q.answers.GetOr([]);
      var j := 0;
      while j < |answers|
        invariant 0 <= j <= |answers|
        invariant client.uploads == start + Uploads([q.request] + Present(answers[..j]), owner, id)
        invariant client.commits == startCommits + 1 + j
        invariant client.incidentCommits == old(client.incidentCommits)
      {
        ghost var log := client.uploads;
        var answerStatus := UploadIndicator(Some(answers[j]));
        UploadsExtend(log, start, [q.request] + Present(answers[..j]), Some(answers[j]), owner, id);
        assert Present(answers[..j + 1]) == Present(answers[..j]) + [Some(answers[j])];
        assert [q.request] + Present(answers[..j]) + [Some(answers[j])] == [q.request] + Present(answers[..j + 1]);
        j := j + 1;
      }
      assert answers[..j] == answers;
    }

    /** `import_network_dns`: every query of the DNS section, in order. */
    method ImportNetworkDns()
      requires tc != null
      modifies tc
      ensures var attempted := DnsAttempted(DnsQueries(results));
              && tc.uploads == old(tc.uploads) + Uploads(attempted, targetSource, incidentId)
              && tc.commits == old(tc.commits) + |attempted|
      ensures tc.incidentCommits == old(tc.incidentCommits)
    {
      var queries := DnsQueries(results);
      var client, owner, id := tc, targetSource, incidentId;
      ghost var start, startCommits := client.uploads, client.commits;
      var i := 0;
      while i < |queries|
        invariant 0 <= i <= |queries|
        invariant client.uploads == start + Uploads(DnsAttempted(queries[..i]), owner, id)
        invariant client.commits == startCommits + |DnsAttempted(queries[..i])|
        invariant client.incidentCommits == old(client.incidentCommits)
      {
        ghost var log := client.uploads;
        UploadDnsQuery(queries[i]);
        UploadsExtendBy(log, start, DnsAttempted(queries[..i]), DnsCandidates(queries[i]), owner, id);
        DnsAttemptedSnoc(queries, i);
        i := i + 1;
      }
      assert queries[..i] == queries;
    }

    /** One record of `import_network_domains`'s loop: the `ip` if truthy, then the `domain` if truthy. */
    method UploadDomain(d: DomainRecord)
      requires tc != null
      modifies tc
      ensures tc.uploads == old(tc.uploads) + Uploads(DomainCandidates(d), targetSource, incidentId)
      ensures tc.commits == old(tc.commits) + |DomainCandidates(d)|
      ensures tc.incidentCommits == old(tc.incidentCommits)
    {
      ghost var start := tc.uploads;
      ghost var attempted: seq<Option<string>> := [];
      if Truthy(d.ip) {
        ghost var log := tc.uploads;
        var ipStatus := UploadIndicator(d.ip);
        UploadsExtend(log, start, attempted, d.ip, targetSource, incidentId);
        attempted := attempted + [d.ip];
      }
      if Truthy(d.domain) {
        ghost var log := tc.uploads;
        var domainStatus := UploadIndicator(d.domain);
        UploadsExtend(log, start, attempted, d.domain, targetSource, incidentId);
        attempted := attempted + [d.domain];
      }
      assert attempted == DomainCandidates(d);
    }

    /** `import_network_domains`: every record of the domains section, in order. */
    method ImportNetworkDomains()
      requires tc != null
      modifies tc
      ensures var attempted := DomainsAttempted(Domains(results));
              && tc.uploads == old(tc.uploads) + Uploads(attempted, targetSource, incidentId)
              && tc.commits == old(tc.commits) + |attempted|
      ensures tc.incidentCommits == old(tc.incidentCommits)
    {
      var domains := Domains(results);
      var client, owner, id := tc, targetSource, incidentId;
      ghost var start, startCommits := client.uploads, client.commits;
      var i := 0;
      while i < |domains|
        invariant 0 <= i <= |domains|
        invariant client.uploads == start + Uploads(DomainsAttempted(domains[..i]), owner, id)
        invariant client.commits == startCommits + |DomainsAttempted(domains[..i])|
        invariant client.incidentCommits == old(client.incidentCommits)
      {
        ghost var log := client.uploads;
        UploadDomain(domains[i]);
        UploadsExtendBy(log, start, DomainsAttempted(domains[..i]), DomainCandidates(domains[i]), owner, id);
        assert domains[..i + 1][..i] == domains[..i];
        i := i + 1;
      }
      assert domains[..i] == domains;
    }

    /**
     * `import_file`: the file indicator for a file target; its commit failure
     * is classified as in the upload sink and is not caught here.
     */
    method ImportFile() returns (st: Status)
      requires tc != null && FileImportDefined(results)
      modifies tc
      ensures tc.uploads == old(tc.uploads) + FileUploads(results, targetSource, incidentId)
      ensures tc.incidentCommits == old(tc.incidentCommits)
      ensures IsFileTarget(results) ==>
                tc.commits == old(tc.commits) + 1 && st == IndicatorCommitStatus(tc.oracle(old(tc.commits)))
      ensures !IsFileTarget(results) ==> tc.commits == old(tc.commits) && st == Normal
    {
      st := Normal;
      if results.target.value.category == Some("file") {
        if results.target.value.file.Some? {
          var fileData := results.target.value.file.value;
          var indicator := new IndicatorResource(fileData.md5, targetSource);
          indicator.SetIndicator(fileData.sha1);
          indicator.SetIndicator(fileData.sha256);
          indicator.SetSize(fileData.size);
          ghost var occurrences: seq<Occurrence> := [];
          if Truthy(results.info.value.started) {
            var foDate := FirstTen(results.info.value.started.value);
            indicator.AddFileOccurrence(fileData.name, foDate);
            occurrences := [Occurrence(fileData.name, foDate)];
          }
          indicator.AssociateIncident(incidentId);
          assert indicator.State()
                 == IndicatorState(fileData.md5, targetSource, [fileData.sha1, fileData.sha256], fileData.size,
                                   occurrences, Some(incidentId));
          assert [indicator.State()] == FileUploads(results, targetSource, incidentId);
          var o := tc.CommitIndicator(indicator.State());
          st := IndicatorCommitStatus(o);
        }
      }
    }

    /**
     * The extractors `run` calls once the incident exists, in order; the
     * file extractor's error is caught and logged, so the sequence always
     * completes.
     */
    method ImportAll()
      requires tc != null && HttpHostsPresent(results) && FileImportDefined(results)
      modifies tc
      ensures tc.uploads == old(tc.uploads) + RunUploads(results, targetSource, incidentId)
      ensures tc.incidentCommits == old(tc.incidentCommits)
      ensures tc.commits == old(tc.commits) + |RunUploads(results, targetSource, incidentId)|
    {
      var client, owner, id := tc, targetSource, incidentId;
      ghost var start := client.uploads;
      ImportNetwork(Udp);
      ImportNetwork(Tcp);
      ImportNetworkHttp();
      ImportNetworkHosts();
      ImportNetworkDns();
      ImportNetworkDomains();
      var fileStatus := ImportFile();
      RunUploadsInOrder(start, results, owner, id);
      UploadsAt(NetworkCandidates(results), owner, id);
    }

    /**
     * `run`: records the options and results, creates the incident (a failure
     * propagates and nothing is uploaded), then runs the extractors in order;
     * the file extractor's error does not escape.
     */
    method Run(results: AnalysisResult, options: Options, client: Client,
               dateToday: string, nowIso: string, format: (string, int) -> string)
      returns (st: Status)
      requires IncidentDefined(results) && HttpHostsPresent(results)
      modifies this, client
      ensures this.results == results && tc == client
      ensures targetSource == options.targetSource && reportLinkTemplate == options.reportLinkTemplate
      ensures var draft := DraftIncident(results, options.targetSource, options.reportLinkTemplate, dateToday, nowIso, format);
              var first := client.oracle(old(client.commits));
              var second := client.oracle(old(client.commits) + 1);
              if first.Failed? then
                && st == ReportError("Failed to commit incident: " + first.message)
                && client.incidentCommits == old(client.incidentCommits) + [draft]
                && client.uploads == old(client.uploads)
                && client.commits == old(client.commits) + 1
                && incidentId == old(incidentId)
              else
                && client.incidentCommits == old(client.incidentCommits) + [draft, LabelledIncident(draft, client.storedAttributes)]
                && if second.Failed? then
                     && st == ReportError("Failed to commit incident: " + second.message)
                     && client.uploads == old(client.uploads)
                     && client.commits == old(client.commits) + 2
                     && incidentId == old(incidentId)
                   else
                     && st == Normal && incidentId == client.assignedIncidentId
                     && client.uploads == old(client.uploads) + RunUploads(results, options.targetSource, client.assignedIncidentId)
                     && client.commits == old(client.commits) + 2 + |RunUploads(results, options.targetSource, client.assignedIncidentId)|
    {
      targetSource := options.targetSource;
      tc := client;
      reportLinkTemplate := options.reportLinkTemplate;
      this.results := results;

      var created := CreateIncident(dateToday, nowIso, format);
      if created.Failure? {
        st := ReportError(created.error);
        return;
      }
      incidentId := created.value;
      ImportAll();
      st := Normal;
    }
  }
}
