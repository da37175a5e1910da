/**
 * The part of the ThreatConnect SDK the reporter uses, replaced by a client
 * that records every commit it is asked to make. Whether a commit succeeds is
 * the platform's decision: the client draws the outcome of its n-th commit
 * from `oracle(n)`. Resources (`incidents().add(...)`, `indicators().add(...)`)
 * are local objects whose setters change their fields; a commit records a
 * snapshot of the resource's state.
 */
module ThreatConnect {
  import opened Wrappers

  /** What a commit does: it persists, or the SDK raises `RuntimeError` with a message. */
  datatype Outcome = Committed | Failed(message: string)

  datatype AttributeValue = IntValue(n: int) | TextValue(text: string)

  datatype Attribute = Attribute(attrType: string, value: AttributeValue, securityLabels: seq<string>)

  /** What an incident commit sends. */
  datatype IncidentState = IncidentState(title: string, owner: string, eventDate: Option<string>, attributes: seq<Attribute>)

  /** A file occurrence: the file name and the date it was seen. */
  datatype Occurrence = Occurrence(fileName: Option<string>, date: string)

  /**
   * What an indicator commit sends: the raw value it was added with, its owner,
   * the values set with `set_indicator`, its size, its file occurrences and the
   * incident it is associated with.
   */
  datatype IndicatorState = IndicatorState(
    value: Option<string>,
    owner: string,
    hashes: seq<Option<string>>,
    size: Option<int>,
    occurrences: seq<Occurrence>,
    incident: Option<int>)

  /** An incident resource, as `incidents.add(title, owner)` returns it. */
  class IncidentResource {
    var title: string
    var owner: string
    var eventDate: Option<string>
    var attributes: seq<Attribute>

    function State(): IncidentState
      reads this
    {
      IncidentState(title, owner, eventDate, attributes)
    }

    constructor (title: string, owner: string)
      ensures State() == IncidentState(title, owner, None, [])
    {
      this.title := title;
      this.owner := owner;
      eventDate := None;
      attributes := [];
    }

    method SetEventDate(date: string)
      modifies this
      ensures State() == old(State()).(eventDate := Some(date))
    {
      eventDate := Some(date);
    }

    method AddAttribute(attrType: string, value: AttributeValue)
      modifies this
      ensures State() == old(State()).(attributes := old(attributes) + [Attribute(attrType, value, [])])
    {
      attributes := attributes + [Attribute(attrType, value, [])];
    }

    /** `load_attributes`: the attribute list is replaced by what the platform holds. */
    method LoadAttributes(tc: Client)
      modifies this
      ensures State() == old(State()).(attributes := tc.storedAttributes)
    {
      attributes := tc.storedAttributes;
    }

    /** `attribute.add_security_label(securityLabel)` on the attribute at index `k`. */
    method AddSecurityLabel(k: nat, securityLabel: string)
      requires k < |attributes|
      modifies this
      ensures State() == old(State()).(attributes := old(attributes)[k := old(attributes)[k].(
                securityLabels := old(attributes)[k].securityLabels + [securityLabel])])
    {
      attributes := attributes[k := attributes[k].(securityLabels := attributes[k].securityLabels + [securityLabel])];
    }
  }

  /** An indicator resource, as `indicators.add(value, owner)` returns it. */
  class IndicatorResource {
    var value: Option<string>
    var owner: string
    var hashes: seq<Option<string>>
    var size: Option<int>
    var occurrences: seq<Occurrence>
    var incident: Option<int>

    function State(): IndicatorState
      reads this
    {
      IndicatorState(value, owner, hashes, size, occurrences, incident)
    }

    constructor (value: Option<string>, owner: string)
      ensures State() == IndicatorState(value, owner, [], None, [], None)
    {
      this.value := value;
      this.owner := owner;
      hashes := [];
      size := None;
      occurrences := [];
      incident := None;
    }

    method SetIndicator(hash: Option<string>)
      modifies this
      ensures State() == old(State()).(hashes := old(hashes) + [hash])
    {
      hashes := hashes + [hash];
    }

    method SetSize(size: Option<int>)
      modifies this
      ensures State() == old(State()).(size := size)
    {
      this.size := size;
    }

    method AddFileOccurrence(fileName: Option<string>, date: string)
      modifies this
      ensures State() == old(State()).(occurrences := old(occurrences) + [Occurrence(fileName, date)])
    {
      occurrences := occurrences + [Occurrence(fileName, date)];
    }

    /** `associate_group(ResourceType.INCIDENTS, id)`. */
    method AssociateIncident(id: int)
      modifies this
      ensures State() == old(State()).(incident := Some(id))
    {
      incident := Some(id);
    }
  }

  /**
   * The connected `ThreatConnect` handle. `assignedIncidentId` is the id the
   * platform gives the incident, `storedAttributes` what `load_attributes`
   * fetches; `incidentCommits` and `uploads` record every commit attempted,
   * successful or not, and `commits` counts them.
   */
  class Client {
    const oracle: nat -> Outcome
    const assignedIncidentId: int
    const storedAttributes: seq<Attribute>
    var commits: nat
    var incidentCommits: seq<IncidentState>
    var uploads: seq<IndicatorState>

    constructor (oracle: nat -> Outcome, assignedIncidentId: int, storedAttributes: seq<Attribute>)
      ensures this.oracle == oracle && this.assignedIncidentId == assignedIncidentId
      ensures this.storedAttributes == storedAttributes
      ensures commits == 0 && incidentCommits == [] && uploads == []
    {
      this.oracle := oracle;
      this.assignedIncidentId := assignedIncidentId;
      this.storedAttributes := storedAttributes;
      commits := 0;
      incidentCommits := [];
      uploads := [];
    }

    method CommitIncident(incident: IncidentState) returns (o: Outcome)
      modifies this
      ensures o == oracle(old(commits)) && commits == old(commits) + 1
      ensures incidentCommits == old(incidentCommits) + [incident] && uploads == old(uploads)
    {
      o := oracle(commits);
      commits := commits + 1;
      incidentCommits := incidentCommits + [incident];
    }

    method CommitIndicator(indicator: IndicatorState) returns (o: Outcome)
      modifies this
      ensures o == oracle(old(commits)) && commits == old(commits) + 1
      ensures uploads == old(uploads) + [indicator] && incidentCommits == old(incidentCommits)
    {
      o := oracle(commits);
      commits := commits + 1;
      uploads := uploads + [indicator];
    }
  }
}
