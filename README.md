# ThreatConnect reporter for Cuckoo, modelled in Dafny

This project is a model of `threatconnect-report.py`, the Cuckoo 1.2 reporting module that turns one
analysis into a ThreatConnect incident and then uploads the analysis' network and file indicators,
each associated with that incident. The model covers:

- the `ip` helper;
- the `re.sub(':\d+', '', host)` port stripping of HTTP hosts;
- the incident builder `create_incident`, which commits, reloads the attributes, labels the `Analysis ID` and
  `Source` attributes `DO NOT SHARE` in place, and commits again;
- the upload sink `upload_indicator`, whose exclusion-list failures are swallowed;
- the five network extractors, each a loop with a failure boundary around every upload;
- the file extractor `import_file`, which has no loop and no handler of its own: `run` catches its commit error;
- the `run` orchestrator.

Modules:

- `Wrappers`: `Option` and `Result`.
- `Text`: ASCII digits, decimal numerals, substring search, split and join, subsequences.
- `Normalizer`: `Ip`, and `StripPorts` with its properties.
- `ThreatConnect`: the part of the SDK the reporter uses. It consists of an incident resource and an indicator
  resource, whose setters change their fields, and a `Client`. The `Client` logs every commit it is asked to
  make, and draws the outcome of its n-th commit from an `oracle` (success, or a `RuntimeError` with a message).
- `Analysis`: the keys of the Cuckoo result that are read. Every `.get` is an `Option`, every iterated list a
  `seq`. The module also holds the conditions under which the code does not crash.
- `Extraction`: what each extractor attempts, as pure spec functions of the result, and lemmas about them.
- `Report`: the `ThreatConnectReport` class. Its methods are proved to append exactly the spec functions'
  uploads to the client's log, and to classify commit outcomes as intended.

The key results:

- Every extractor attempts a fixed list of values, in order, whatever the outcome of each upload.
- A failed incident commit stops the run before anything is uploaded.
- Otherwise `run` attempts the udp, tcp, http, hosts, dns, domains and file indicators, in that order.
  Every one of them is owned by the target source and associated with the new incident, and `run` ends normally.

## Model

| member | source | states |
|---|---|---|
| Normalizer.DottedQuadIsIp | threatconnect-report.py:28-35 | every canonically written dotted quad with octets at most 255 is accepted by `ip`, and splits back into its four numerals |
| Normalizer.IpIsDottedQuad | threatconnect-report.py:28-35 | conversely, every string `ip` accepts is the canonical dotted quad of its four octet values, each at most 255 |
| Normalizer.Ip | threatconnect-report.py:28-35 | an accepted address contains no `:`, so port stripping cannot touch it; `DottedQuadIsIp` and `IpIsDottedQuad` characterise what it accepts |
| Normalizer.StripPorts | threatconnect-report.py:140 | the stripped host is never longer than the host. `StripPortsLeavesNoPort` says every port is gone, and `StripPortsKeepsPortless`, `StripLeadingPort` and `StripMiddlePort` say which characters survive |
| Normalizer.StripPortsLeavesNoPort | threatconnect-report.py:140 | after stripping no `:` is immediately followed by a digit |
| Normalizer.StripPortsKeepsPortless | threatconnect-report.py:140 | a host in which `:\d+` has no match is returned unchanged |
| Normalizer.StripPortsIsSubsequence | threatconnect-report.py:140 | the stripped host is a subsequence of the host and never longer |
| Normalizer.StripPortsIdempotent | threatconnect-report.py:140 | stripping twice equals stripping once |
| Normalizer.StripLeadingPort | threatconnect-report.py:140 | a host that starts with `:` and a maximal run of digits loses exactly that port, and the rest is stripped in turn |
| Normalizer.StripMiddlePort | threatconnect-report.py:140 | the match is not anchored: for a portless `h`, `h + ":" + digits + t` with `t` not starting with a digit strips to `h` followed by `t` stripped, so `a:1b` gives `ab` |
| Normalizer.StripTrailingPort | threatconnect-report.py:140 | `host + ":" + digits` strips back to `host` when `host` has no match of its own |
| Normalizer.StripAddressWithPort | threatconnect-report.py:140-143 | an address literal is unchanged by stripping, and `address:port` strips back to the address |
| Text.ContainsIffOccurs | threatconnect-report.py:106 | the search predicate holds exactly when the pattern occurs at some index of the message |
| Report.IsExclusion | threatconnect-report.py:106 | a failure message counts as an exclusion-list failure exactly when `exclusion list` occurs at some index of it, the test `import_file` repeats at line 253 |
| Report.IndicatorCommitStatus | threatconnect-report.py:103-107 | a commit ends normally if and only if it succeeded or its failure message contains `exclusion list`; otherwise it raises `Failed to commit indicator: ` followed by the message |
| Report.ExclusionSwallowed | threatconnect-report.py:106 | any failure message with `exclusion list` anywhere in it is swallowed |
| Report.AsWrittenCommitExit | threatconnect-report.py:103-107 | the handler as written: a commit outcome stays inside the handlers exactly when the commit succeeded, and `CuckooReportError` is never raised, because the exception object reaches `re.search` |
| Report.ExclusionEscapesAsWritten | threatconnect-report.py:103-107 | an exclusion-list failure escapes every handler as written, while the intended classification swallows it |
| Report.IncidentTitle | threatconnect-report.py:56 | the incident title is `Cuckoo Analysis `, the date, `: ` and the file name, in that order and nothing else |
| Report.LabelSensitive | threatconnect-report.py:84-86 | only the `Analysis ID` and `Source` attributes gain `DO NOT SHARE`; every attribute keeps its type and value, and every other attribute is unchanged |
| Report.DraftIncident | threatconnect-report.py:56-72 | the first commit's incident has the title from `IncidentTitle`, the target source as owner, the current time as event date, and exactly two unlabelled attributes: first `Analysis ID` holding the analysis id, then `Source` holding the report link formatted from it |
| Report.LabelledIncident | threatconnect-report.py:80-92 | the second commit keeps the draft's title, owner and event date and carries the reloaded attributes, one for one with their types and values; each sensitive one keeps its labels and gains `DO NOT SHARE` after them, all others are unchanged |
| Report.LabelAttributes | threatconnect-report.py:84-86 | the labelling loop changes the incident in place into `LabelledIncident` of itself and its loaded attributes: title, owner and event date are kept, and each `Analysis ID` or `Source` attribute gains `DO NOT SHARE` after its existing labels |
| Report.ThreatConnectReport.CreateIncident | threatconnect-report.py:41-94 | the first commit sends the draft incident (title, owner, event date, `Analysis ID` and `Source` attributes). If it fails, the result is `Failed to commit incident: ` + message and nothing else is committed. Otherwise the reloaded attributes are labelled and committed, and the result is that commit's error or the platform's incident id. No indicator is uploaded |
| Report.ThreatConnectReport.UploadIndicator | threatconnect-report.py:96-107 | exactly one indicator is committed: the raw value, owned by the target source and associated with the current incident. The outcome is classified by `IndicatorCommitStatus` |
| Extraction.ConnectionCandidates | threatconnect-report.py:118-128 | a connection gives two attempts: its `src`, then its `dst` |
| Report.ThreatConnectReport.UploadConnection | threatconnect-report.py:118-128 | one connection uploads its `src` and then its `dst`, whatever each outcome |
| Report.ThreatConnectReport.ImportNetwork | threatconnect-report.py:109-128 | the log grows by exactly the uploads of `ConnectionsAttempted` of the protocol's section, one commit each |
| Extraction.ConnectionAttemptsPaired | threatconnect-report.py:116-128 | N connections give exactly 2N attempts: the i-th connection's `src` at 2i and its `dst` at 2i+1 |
| Extraction.AbsentSectionsNoAttempts | threatconnect-report.py:116 | a missing `network` gives no network attempts at all, and a missing protocol key gives no connection attempts |
| Extraction.HttpCandidates | threatconnect-report.py:139-154 | an HTTP entry gives at most two attempts: the stripped host first, present exactly when it is an address, then the URI, present exactly when truthy; nothing else |
| Report.ThreatConnectReport.UploadHttpEntry | threatconnect-report.py:139-154 | one HTTP entry uploads the stripped host only when it is an address, then the URI only when truthy |
| Report.ThreatConnectReport.ImportNetworkHttp | threatconnect-report.py:130-154 | the log grows by exactly the uploads of `HttpAttempted` of the HTTP section |
| Extraction.HttpAddressWithPort | threatconnect-report.py:140-154 | an entry whose host is `address:port` uploads the bare address, then the URI when truthy |
| Extraction.HttpNameNotUploaded | threatconnect-report.py:143-154 | a host that is not an address after stripping is never uploaded; only the URI may be |
| Report.ThreatConnectReport.UploadHost | threatconnect-report.py:164-175 | both branches of the address test upload the host unchanged, once |
| Report.ThreatConnectReport.ImportNetworkHosts | threatconnect-report.py:156-175 | the log grows by exactly the uploads of `HostsAttempted` of the hosts section |
| Extraction.HostAttempts | threatconnect-report.py:162-175 | every host gets exactly one attempt with the unchanged host string, in list order |
| Report.ThreatConnectReport.UploadDnsQuery | threatconnect-report.py:186-197 | one query uploads its request, then each answer in list order |
| Report.ThreatConnectReport.ImportNetworkDns | threatconnect-report.py:177-197 | the log grows by exactly the uploads of `DnsAttempted` of the DNS section |
| Extraction.DnsCandidates | threatconnect-report.py:186-197 | a query gives its request first, then one attempt per answer in order; a missing answer list gives the request alone |
| Report.ThreatConnectReport.UploadDomain | threatconnect-report.py:207-219 | one record uploads its `ip` if truthy, then its `domain` if truthy |
| Extraction.DomainCandidates | threatconnect-report.py:207-219 | a domain record gives its `ip` first, present exactly when truthy, then its `domain`, present exactly when truthy; every attempt is truthy |
| Report.ThreatConnectReport.ImportNetworkDomains | threatconnect-report.py:199-219 | the log grows by exactly the uploads of `DomainsAttempted` of the domains section |
| Extraction.DomainAttemptsTruthy | threatconnect-report.py:205-219 | every domains-section attempt is a truthy value, and there are at most two per record |
| Extraction.FirstTen | threatconnect-report.py:244 | `started[:10]` is the prefix of length min(10, length) |
| Extraction.FileUploads | threatconnect-report.py:227-247 | a result gives one file indicator exactly when its target is a file, and none otherwise. That indicator is keyed by MD5 with SHA1 then SHA256, carries the size, the owner and the incident, and has one occurrence exactly when `started` is truthy: the file name, dated by the first ten characters of `started` |
| Report.ThreatConnectReport.ImportFile | threatconnect-report.py:221-254 | the file indicator is committed only for a `file` target with a `file` entry. It is keyed by MD5, with SHA1 then SHA256 set, the size, a file occurrence when `started` is truthy, and the incident. Its outcome is classified as in the upload sink. Any other target commits nothing and ends normally |
| Extraction.UploadsAt | threatconnect-report.py:96-107 | the i-th upload of a list of raw values commits the i-th value, with the owner and incident; one upload per value |
| Extraction.UploadsAppend | threatconnect-report.py:96-107 | uploading two lists in turn is uploading their concatenation |
| Report.RunUploadsInOrder | threatconnect-report.py:272-279 | a run's attempts are the udp, tcp, http, hosts, dns, domains and file attempts, concatenated in that order |
| Report.RunUploadsAssociated | threatconnect-report.py:96-107 | every indicator a run commits is owned by the target source and associated with the run's incident |
| Report.NoNetworkOnlyFile | threatconnect-report.py:272-279 | a result without `network` attempts at most the file indicator |
| Report.DnsAndFileScenario | threatconnect-report.py:272-279 | a file target with one DNS query and one answer yields the request, the answer and then the file indicator, and with a named file the incident can be built |
| Report.ThreatConnectReport.ImportAll | threatconnect-report.py:272-281 | the extractors together append exactly `RunUploads` to the log, with one commit per upload and no incident commit; a file-commit error is caught |
| Report.ThreatConnectReport.Run | threatconnect-report.py:256-281 | `run` records the target source, client, template and results, then builds the incident. If either incident commit fails, it raises that error, uploads nothing and leaves the incident id unchanged, after one or two commits. Otherwise the incident id is stored, exactly `RunUploads` is appended to the log, the commit count grows by two plus one per upload, and `run` ends normally |

## Left out

- The ThreatConnect SDK is not modelled: the connection and authentication at lines 265-266, transport and
  remote storage. The `Client` stands in for it. Its `oracle` decides every commit outcome, `assignedIncidentId`
  is the id the platform returns, and `storedAttributes` is what `load_attributes` fetches.
- The clock reads at lines 51 and 62 are the parameters `dateToday` and `nowIso`.
- The report-link `str.format` at line 71 is the abstract parameter `format`.
- The API options at lines 261-263 are carried in `Options` and otherwise unused.
- The Cuckoo `Report` base class is not modelled.
- Normalizer.Ip: models `ipaddress.ip_address` for IPv4 dotted quads only. It deliberately follows Python 3.9.5
  and later, which reject every leading zero, rather than the Python 2 runtime of Cuckoo 1.2. Every IPv6
  literal, and every non-`str` value, is classed as not an address. Neither behaviour of the Python 2
  `ipaddress` backport is modelled:
  - It treats every byte `str` as a packed address, so it rejects any `str` that is not 4 or 16 bytes long,
    every dotted quad included. With `str` hosts, line 143 would upload no HTTP host at all.
  - It also accepts a leading zero on an octet of at most 7 in a `unicode` dotted quad.
- Normalizer.StripPorts: `\d` is the ASCII digits `0`-`9`. This is exactly Python 2's meaning for the
  pattern `':\d+'`, which is compiled without `re.UNICODE`, and Cuckoo 1.2 runs on Python 2. Only under
  Python 3 would `\d` also match other Unicode decimal digits.
- Analysis.IsFileTarget: treats any present `target.file` value as truthy. An empty dict is falsy in Python,
  and the model does not distinguish it from a dict whose keys are all missing.
- Python crash paths are preconditions rather than modelled exceptions:
  - `IncidentDefined`: `target`, `file` or `info` is missing, or the unbound `filename` and `analysis_id` at lines 52-53 and 66-68;
  - `HttpHostsPresent`: `re.sub` on a missing host at line 140;
  - `FileImportDefined`: `None.get` in `import_file`.
- A present key whose value is `None` where a list is iterated is not modelled: a missing key reads as an
  empty list, as `.get(..., dict())` gives.
- The `TypeError` that lines 106 and 253 raise is not propagated through the model's methods. It is recorded
  under Findings, and the methods use the intended message-based classification.
- Report.ThreatConnectReport.UploadIndicator: the values are plain strings. Python 2's `str`/`unicode`
  distinction and the SDK's own validation of the indicator value are not modelled.

## Findings

| source | as written | input that shows it | evidently intended | confidence | as-written member | corrected member |
|---|---|---|---|---|---|---|
| threatconnect-report.py:106, 253 | `re.search('exclusion list', e)` receives the `RuntimeError` object, not its message, so it raises `TypeError`. The per-item handlers catch only `CuckooReportError` and `RuntimeError`, as does `run` around `import_file`, so the `TypeError` escapes and one failed indicator commit ends the whole run | a commit that fails with the message `Indicator is on the exclusion list` | search the message text (`str(e)`): swallow exclusion-list failures and raise `CuckooReportError` for the others | not executed | Report.AsWrittenCommitExit, Report.ExclusionEscapesAsWritten | Report.IndicatorCommitStatus |
