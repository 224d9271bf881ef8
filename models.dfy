/** Records shared by the modules: clock values, roster rows, and the JSON-like dictionaries
    that travel between ServiceNow, the queue and the processor. */
module Models {
  import opened Wrappers

  /** A time of day, in whole seconds since midnight. */
  type TimeOfDay = s: nat | s < 86400

  /** datetime.weekday(): 0 is Monday, 5 and 6 are Saturday and Sunday. */
  type Weekday = d: nat | d < 7

  /** The instant at which a decision is evaluated (the source reads it from the clock). */
  datatype Instant = Instant(weekday: Weekday, time: TimeOfDay)

  predicate IsWeekend(now: Instant) {
    now.weekday >= 5
  }

  /** hour * 60 + minute of a time of day: the seconds are dropped. */
  function WholeMinutes(t: TimeOfDay): (m: nat)
    ensures m < 1440 && m * 60 <= t < m * 60 + 60
  {
    t / 60
  }

  /** A roster row of the member table. The shift boundaries are stored as "HH:MM" text; the
      model keeps the outcome of parsing them with time.fromisoformat, None when that raises
      ValueError. */
  datatype MemberData = MemberData(
    assignmentGroupId: string,
    memberId: string,
    memberName: string,
    role: string,
    experienceLevel: int,
    shiftStart: Option<TimeOfDay>,
    shiftEnd: Option<TimeOfDay>,
    weekendShiftFlag: bool,
    isActive: bool)

  /** The value stored under one key of a JSON object. */
  datatype JsonField = Absent | Null | Text(text: string) {
    /** dict.get(key): both a missing key and a JSON null read as None. */
    function Get(): Option<string> {
      if Text? then Some(text) else None
    }

    /** Python truthiness of dict.get(key): a non-empty string. */
    predicate Truthy() {
      Text? && text != ""
    }
  }

  /** The body of a queue message describing one incident (format_incident_for_sqs). */
  datatype IncidentMessage = IncidentMessage(
    incidentNumber: JsonField,
    assignmentGroup: JsonField,
    priority: JsonField,
    severity: JsonField,
    openedAt: JsonField,
    shortDescription: JsonField,
    state: JsonField,
    processingTimestamp: JsonField)
  {
    /** Lookup by the key names the source uses; any other key is absent. */
    function Field(key: string): JsonField {
      if key == "incident_number" then incidentNumber
      else if key == "assignment_group" then assignmentGroup
      else if key == "priority" then priority
      else if key == "severity" then severity
      else if key == "opened_at" then openedAt
      else if key == "short_description" then shortDescription
      else if key == "state" then state
      else if key == "processing_timestamp" then processingTimestamp
      else Absent
    }
  }

  /** The assignment_group value of a ServiceNow incident: a reference object with
      display_value / value / link keys, a plain string, or some other JSON value (whose str()
      and truthiness are given). */
  datatype GroupField =
    | GroupMissing
    | GroupNull
    | GroupText(name: string)
    | GroupReference(displayValue: JsonField, value: JsonField, link: JsonField)
    | GroupOther(repr: string, truthy: bool)

  /** An incident record as returned by the ServiceNow table API. */
  datatype ServiceNowIncident = ServiceNowIncident(
    number: JsonField,
    assignmentGroup: GroupField,
    priority: JsonField,
    severity: JsonField,
    openedAt: JsonField,
    shortDescription: JsonField,
    state: JsonField)
}
