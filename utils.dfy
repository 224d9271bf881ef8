/** The pure-logic helpers of utils.py: the roster availability filter, the incident
    validator, and the builders of queue messages and assignment log records. */
module Utils {
  import opened Wrappers
  import opened Models
  import opened Sequences
  import WeightCalculator

  // ---------------------------------------------------------------------------------------
  // filter_available_members

  /** A member dictionary as the filter sees it: the two flags it reads, None when the key is
      missing, and an identifier. */
  datatype RosterEntry = RosterEntry(memberId: string, isActive: Option<bool>, weekendShiftFlag: Option<bool>)

  /** member.get('is_active', True). */
  predicate IsActive(m: RosterEntry) {
    m.isActive.GetOr(true)
  }

  /** member.get('weekend_shift_flag', False). */
  predicate WorksWeekends(m: RosterEntry) {
    m.weekendShiftFlag.GetOr(false)
  }

  /** The test one member passes to stay in the filtered roster at the given instant. */
  predicate Available(now: Instant, m: RosterEntry) {
    IsActive(m) && (IsWeekend(now) ==> WorksWeekends(m))
  }

  method FilterAvailableMembers(members: seq<RosterEntry>, now: Instant) returns (available: seq<RosterEntry>)
    ensures available == Filter(members, m => Available(now, m))
    ensures IsSubsequence(available, members)
    ensures forall m :: m in available <==>
              m in members && IsActive(m) && (IsWeekend(now) ==> WorksWeekends(m))
  {
    available := [];
    var i := 0;
    while i < |members|
      invariant 0 <= i <= |members|
      invariant available == Filter(members[..i], m => Available(now, m))
    {
      var member := members[i];
      FilterPrefixStep(members, i, m => Available(now, m));
      i := i + 1;
      if !member.isActive.GetOr(true) {
        continue;
      }
      var isWeekend := now.weekday >= 5;
      if isWeekend && !member.weekendShiftFlag.GetOr(false) {
        continue;
      }
      available := available + [member];
    }
    assert members[..i] == members;
    FilterIsSubsequence(members, m => Available(now, m));
    forall m
      ensures m in available <==> m in members && IsActive(m) && (IsWeekend(now) ==> WorksWeekends(m))
    {
      FilterMembership(members, m => Available(now, m), m);
    }
  }

  /** On a weekday the weekend flag plays no part: exactly the active members remain. */
  lemma WeekdayKeepsAllActive(members: seq<RosterEntry>, now: Instant)
    requires !IsWeekend(now)
    ensures Filter(members, m => Available(now, m)) == Filter(members, IsActive)
  {
    FilterSameTest(members, m => Available(now, m), IsActive);
  }

  /** Two tests that agree everywhere keep the same elements. */
  lemma {:induction false} FilterSameTest<T>(s: seq<T>, p: T -> bool, q: T -> bool)
    requires forall x :: p(x) == q(x)
    ensures Filter(s, p) == Filter(s, q)
  {
    if s != [] {
      FilterSameTest(s[..|s| - 1], p, q);
    }
  }

  // ---------------------------------------------------------------------------------------
  // validate_incident_data

  const REQUIRED_FIELDS: seq<string> := ["incident_number", "assignment_group", "priority", "opened_at"]

  /** Every required field holds a truthy value. */
  predicate HasRequiredFields(msg: IncidentMessage) {
    forall k :: 0 <= k < |REQUIRED_FIELDS| ==> msg.Field(REQUIRED_FIELDS[k]).Truthy()
  }

  /** The required fields by name. */
  lemma RequiredFieldsNamed(msg: IncidentMessage)
    ensures HasRequiredFields(msg) <==> msg.incidentNumber.Truthy() && msg.assignmentGroup.Truthy()
                                        && msg.priority.Truthy() && msg.openedAt.Truthy()
  {
    assert msg.Field(REQUIRED_FIELDS[0]) == msg.incidentNumber;
    assert msg.Field(REQUIRED_FIELDS[1]) == msg.assignmentGroup;
    assert msg.Field(REQUIRED_FIELDS[2]) == msg.priority;
    assert msg.Field(REQUIRED_FIELDS[3]) == msg.openedAt;
  }

  method ValidateIncidentData(msg: IncidentMessage) returns (valid: bool)
    ensures valid <==> HasRequiredFields(msg)
    ensures valid <==> msg.incidentNumber.Truthy() && msg.assignmentGroup.Truthy()
                       && msg.priority.Truthy() && msg.openedAt.Truthy()
  {
    RequiredFieldsNamed(msg);
    var i := 0;
    while i < |REQUIRED_FIELDS|
      invariant 0 <= i <= |REQUIRED_FIELDS|
      invariant forall k :: 0 <= k < i ==> msg.Field(REQUIRED_FIELDS[k]).Truthy()
    {
      if !msg.Field(REQUIRED_FIELDS[i]).Truthy() {
        return false;
      }
      i := i + 1;
    }
    return true;
  }

  // ---------------------------------------------------------------------------------------
  // format_incident_for_sqs

  /** incident.get(key): a missing key is serialised as JSON null. */
  function Carried(f: JsonField): (r: JsonField)
    ensures !r.Absent?
    ensures r.Get() == f.Get()
  {
    if f.Absent? then Null else f
  }

  /** The queue message for an incident; the clock reading is passed in. */
  function FormatIncidentForSqs(incident: ServiceNowIncident, assignmentGroup: string, timestamp: string): (msg: IncidentMessage)
    ensures msg.incidentNumber.Get() == incident.number.Get()
    ensures msg.assignmentGroup == Text(assignmentGroup)
    ensures msg.priority.Get() == incident.priority.Get() && msg.severity.Get() == incident.severity.Get()
    ensures msg.openedAt.Get() == incident.openedAt.Get()
    ensures msg.shortDescription.Get() == incident.shortDescription.Get()
    ensures msg.state.Get() == incident.state.Get()
    ensures msg.processingTimestamp == Text(timestamp)
  {
    IncidentMessage(Carried(incident.number), Text(assignmentGroup), Carried(incident.priority),
                    Carried(incident.severity), Carried(incident.openedAt), Carried(incident.shortDescription),
                    Carried(incident.state), Text(timestamp))
  }

  /** A formatted message has every key of the message format. */
  lemma FormattedMessageHasEveryKey(incident: ServiceNowIncident, group: string, timestamp: string, key: string)
    requires key in ["incident_number", "assignment_group", "priority", "severity", "opened_at",
                     "short_description", "state", "processing_timestamp"]
    ensures !FormatIncidentForSqs(incident, group, timestamp).Field(key).Absent?
  {
  }

  // ---------------------------------------------------------------------------------------
  // create_assignment_log_entry

  /** One row of the assignment history. */
  datatype AssignmentLogEntry = AssignmentLogEntry(
    incidentNumber: Option<string>,
    assignmentGroupId: Option<string>,
    assignedMemberId: string,
    assignedMemberName: string,
    incidentPriority: Option<string>,
    incidentSeverity: Option<string>,
    calculatedWeights: WeightCalculator.WeightsSummary,
    workloadScore: real,
    roleScore: real,
    availabilityScore: real,
    finalWeight: real,
    assignmentReason: WeightCalculator.AssignmentReason)

  /** incident_data[key]: Failure names the key when it is missing (a KeyError). */
  function Subscript(msg: IncidentMessage, key: string): Result<Option<string>, string> {
    if msg.Field(key).Absent? then Failure(key) else Success(msg.Field(key).Get())
  }

  /** The dictionary display is evaluated in order, so the first missing subscripted key is
      the one reported. */
  function CreateAssignmentLogEntry(msg: IncidentMessage, selected: WeightCalculator.MemberWeight,
                                    summary: WeightCalculator.WeightsSummary,
                                    reason: WeightCalculator.AssignmentReason): (r: Result<AssignmentLogEntry, string>)
    ensures r.Failure? <==> msg.incidentNumber.Absent? || msg.assignmentGroup.Absent? || msg.priority.Absent?
    ensures r.Failure? ==> r.error == (if msg.incidentNumber.Absent? then "incident_number"
                                       else if msg.assignmentGroup.Absent? then "assignment_group"
                                       else "priority")
    ensures r.Success? ==>
              && r.value.incidentNumber == msg.incidentNumber.Get()
              && r.value.assignmentGroupId == msg.assignmentGroup.Get()
              && r.value.incidentPriority == msg.priority.Get()
              && r.value.incidentSeverity == msg.severity.Get()
              && r.value.assignedMemberId == selected.memberId
              && r.value.assignedMemberName == selected.memberName
              && r.value.workloadScore == selected.workloadScore
              && r.value.roleScore == selected.roleScore
              && r.value.availabilityScore == selected.availabilityScore
              && r.value.finalWeight == selected.finalWeight
              && r.value.calculatedWeights == summary && r.value.assignmentReason == reason
  {
    match Subscript(msg, "incident_number")
    case Failure(k) => Failure(k)
    case Success(number) =>
      match Subscript(msg, "assignment_group")
      case Failure(k) => Failure(k)
      case Success(group) =>
        match Subscript(msg, "priority")
        case Failure(k) => Failure(k)
        case Success(priority) =>
          Success(AssignmentLogEntry(number, group, selected.memberId, selected.memberName, priority,
                                     msg.severity.Get(), summary, selected.workloadScore, selected.roleScore,
                                     selected.availabilityScore, selected.finalWeight, reason))
  }

  /** A message built by the fetcher always yields a log entry. */
  lemma FormattedMessageLogs(incident: ServiceNowIncident, group: string, timestamp: string,
                             selected: WeightCalculator.MemberWeight, summary: WeightCalculator.WeightsSummary,
                             reason: WeightCalculator.AssignmentReason)
    ensures CreateAssignmentLogEntry(FormatIncidentForSqs(incident, group, timestamp), selected, summary, reason).Success?
  {
  }
}
