/** The per-incident logic of incident_fetcher.py: reading the group name off a ServiceNow
    record, validating the queue message, and counting the incidents that reach the queue. */
module IncidentFetcher {
  import opened Wrappers
  import opened Models
  import Utils

  /** Python truthiness of the assignment_group value. */
  predicate GroupTruthy(g: GroupField) {
    match g
    case GroupMissing => false
    case GroupNull => false
    case GroupText(name) => name != ""
    case GroupReference(d, v, l) => !d.Absent? || !v.Absent? || !l.Absent?
    case GroupOther(_, truthy) => truthy
  }

  /** extract_assignment_group_name; None stands for a JSON null read out of a reference
      object, which the caller treats like "". */
  function ExtractAssignmentGroupName(incident: ServiceNowIncident): (r: Option<string>)
    ensures !GroupTruthy(incident.assignmentGroup) ==> r == Some("")
    ensures incident.assignmentGroup.GroupText? ==> r == Some(incident.assignmentGroup.name)
    ensures incident.assignmentGroup.GroupOther? && incident.assignmentGroup.truthy ==>
              r == Some(incident.assignmentGroup.repr)
    ensures incident.assignmentGroup.GroupReference? && GroupTruthy(incident.assignmentGroup) ==>
              r == if !incident.assignmentGroup.displayValue.Absent? then incident.assignmentGroup.displayValue.Get()
                   else if !incident.assignmentGroup.value.Absent? then incident.assignmentGroup.value.Get()
                   else Some("")
  {
    var g := incident.assignmentGroup;
    if !GroupTruthy(g) then Some("")
    else match g
      case GroupReference(d, v, _) =>
        if !d.Absent? then d.Get() else if !v.Absent? then v.Get() else Some("")
      case GroupText(name) => Some(name)
      case GroupOther(repr, _) => Some(repr)
  }

  /** A usable group name: not None and not empty. */
  predicate HasGroup(incident: ServiceNowIncident) {
    var g := ExtractAssignmentGroupName(incident);
    g.Some? && g.value != ""
  }

  /** A reference object yields a usable name exactly when its display value, or failing
      that key its value, is a non-empty string. */
  lemma ReferenceGroupName(incident: ServiceNowIncident)
    requires incident.assignmentGroup.GroupReference?
    ensures HasGroup(incident) <==>
              var g := incident.assignmentGroup;
              if !g.displayValue.Absent? then g.displayValue.Truthy() else g.value.Truthy()
  {
  }

  const VALID_PRIORITIES: seq<string> := ["1", "2", "3", "4", "5"]

  /** validate_incident_data: the required-field check; a priority outside "1".."5" raises
      only a warning, reported here as the second result. */
  method ValidateIncidentData(msg: IncidentMessage) returns (valid: bool, priorityWarning: bool)
    ensures valid <==> Utils.HasRequiredFields(msg)
    ensures priorityWarning <==> valid && msg.priority.Get() !in [Some("1"), Some("2"), Some("3"), Some("4"), Some("5")]
  {
    var i := 0;
    while i < |Utils.REQUIRED_FIELDS|
      invariant 0 <= i <= |Utils.REQUIRED_FIELDS|
      invariant forall k :: 0 <= k < i ==> msg.Field(Utils.REQUIRED_FIELDS[k]).Truthy()
    {
      if !msg.Field(Utils.REQUIRED_FIELDS[i]).Truthy() {
        return false, false;
      }
      i := i + 1;
    }
    var p := msg.Field("priority").Get();
    priorityWarning := p.None? || p.value !in VALID_PRIORITIES;
    valid := true;
  }

  /** The conditions under which the incident at position i is counted: a usable group
      name, a valid message, and a send that succeeded. */
  predicate Queued(incident: ServiceNowIncident, i: nat, sendOk: nat -> bool, timestamp: string) {
    HasGroup(incident)
    && Utils.HasRequiredFields(Utils.FormatIncidentForSqs(incident, ExtractAssignmentGroupName(incident).value, timestamp))
    && sendOk(i)
  }

  /** The number of incidents among the first n that are counted. */
  function QueuedCount(incidents: seq<ServiceNowIncident>, n: nat, sendOk: nat -> bool, timestamp: string): nat
    requires n <= |incidents|
  {
    if n == 0 then 0
    else QueuedCount(incidents, n - 1, sendOk, timestamp) + (if Queued(incidents[n - 1], n - 1, sendOk, timestamp) then 1 else 0)
  }

  /** process_incidents_to_sqs; sendOk(i) is what send_to_sqs returns for the i-th incident.
      A failure of the processing-log write after a send is caught and does not undo the
      count, so it is not an input. */
  method ProcessIncidentsToSqs(incidents: seq<ServiceNowIncident>, sendOk: nat -> bool, timestamp: string)
    returns (processedCount: nat)
    ensures processedCount == QueuedCount(incidents, |incidents|, sendOk, timestamp)
    ensures processedCount <= |incidents|
  {
    processedCount := 0;
    var i := 0;
    while i < |incidents|
      invariant 0 <= i <= |incidents|
      invariant processedCount == QueuedCount(incidents, i, sendOk, timestamp)
    {
      var incident := incidents[i];
      var assignmentGroup := ExtractAssignmentGroupName(incident);
      i := i + 1;
      if assignmentGroup.None? || assignmentGroup.value == "" {
        continue;
      }
      var sqsMessage := Utils.FormatIncidentForSqs(incident, assignmentGroup.value, timestamp);
      var valid, _ := ValidateIncidentData(sqsMessage);
      if !valid {
        continue;
      }
      if sendOk(i - 1) {
        processedCount := processedCount + 1;
      }
    }
    QueuedCountBounds(incidents, |incidents|, sendOk, timestamp);
  }

  /** The count never exceeds the number of incidents, and reaches it exactly when every one
      of them is queued. */
  lemma {:induction false} QueuedCountBounds(incidents: seq<ServiceNowIncident>, n: nat, sendOk: nat -> bool, timestamp: string)
    requires n <= |incidents|
    ensures QueuedCount(incidents, n, sendOk, timestamp) <= n
    ensures QueuedCount(incidents, n, sendOk, timestamp) == n <==>
              forall i :: 0 <= i < n ==> Queued(incidents[i], i, sendOk, timestamp)
  {
    if n > 0 {
      QueuedCountBounds(incidents, n - 1, sendOk, timestamp);
    }
  }

  /** An incident without a usable group name is never counted, whatever the queue does. */
  lemma NoGroupNeverQueued(incident: ServiceNowIncident, i: nat, sendOk: nat -> bool, timestamp: string)
    requires !GroupTruthy(incident.assignmentGroup)
    ensures !Queued(incident, i, sendOk, timestamp)
  {
  }
}
