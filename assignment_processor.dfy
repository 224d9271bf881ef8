/** The assignment path of assignment_processor.py: the availability gate, the roster
    intersection with ServiceNow, the workload lookup, the outcome of processing one incident,
    and the accounting over a batch of queue messages. The ServiceNow, database and queue
    calls are inputs (an AssignmentEnv per message). */
module AssignmentProcessor {
  import opened Wrappers
  import opened Models
  import opened Errors
  import opened Sequences
  import WC = WeightCalculator
  import Utils

  // ---------------------------------------------------------------------------------------
  // The availability gate

  /** is_member_currently_available. Out of shift, the member stays available while the
      availability score is at least 0.3, that is within 168 whole minutes of a boundary. */
  function IsMemberCurrentlyAvailable(m: MemberData, now: Instant): (r: bool)
    ensures IsWeekend(now) && !m.weekendShiftFlag ==> !r
    ensures !(IsWeekend(now) && !m.weekendShiftFlag) && (m.shiftStart.None? || m.shiftEnd.None?) ==> r
    ensures !(IsWeekend(now) && !m.weekendShiftFlag) && m.shiftStart.Some? && m.shiftEnd.Some? ==>
              (r <==> WC.IsTimeInShift(now.time, m.shiftStart.value, m.shiftEnd.value)
                      || WC.ProximityDistance(WholeMinutes(now.time), WholeMinutes(m.shiftStart.value),
                                              WholeMinutes(m.shiftEnd.value)) <= 168)
  {
    if IsWeekend(now) && !m.weekendShiftFlag then false
    else if m.shiftStart.None? || m.shiftEnd.None? then true
    else
      var inShift := WC.IsTimeInShift(now.time, m.shiftStart.value, m.shiftEnd.value);
      if !inShift then
        WC.ProximityThresholds(WC.ProximityDistance(WholeMinutes(now.time), WholeMinutes(m.shiftStart.value),
                                                    WholeMinutes(m.shiftEnd.value)));
        WC.CalculateAvailabilityScore(m, now) >= 0.3
      else true
  }

  /** Half an hour before a 22:00-06:00 shift the member is turned away: the overnight rule
      measures 1410 minutes to the start. An hour before a 09:00-17:00 shift they pass. */
  lemma GateExamples(m: MemberData)
    requires m.shiftStart == Some(79200) && m.shiftEnd == Some(21600)
    ensures !IsMemberCurrentlyAvailable(m, Instant(0, 77400))
    ensures IsMemberCurrentlyAvailable(m.(shiftStart := Some(32400), shiftEnd := Some(61200)), Instant(0, 28800))
  {
    assert WC.ProximityDistance(1290, 1320, 360) == 930;
    assert WC.ProximityDistance(480, 540, 1020) == 60;
  }

  // ---------------------------------------------------------------------------------------
  // Roster intersection

  datatype SnUser = SnUser(sysId: string, userName: string)

  /** An entry of the group membership list; the source reads member['user']. */
  datatype SnMember = SnMember(user: SnUser)

  /** {member['user']['user_name'] for member in servicenow_members}. */
  function UserNames(snMembers: seq<SnMember>): set<string> {
    set i | 0 <= i < |snMembers| :: snMembers[i].user.userName
  }

  function InServiceNow(names: set<string>): MemberData -> bool {
    (m: MemberData) => m.memberId in names
  }

  function CurrentlyAvailable(now: Instant): MemberData -> bool {
    (m: MemberData) => IsMemberCurrentlyAvailable(m, now)
  }

  /** The roster the calculator sees: database members listed in ServiceNow, then those the
      gate lets through. */
  function AvailableMembers(snMembers: seq<SnMember>, dbMembers: seq<MemberData>, now: Instant): seq<MemberData> {
    Filter(Filter(dbMembers, InServiceNow(UserNames(snMembers))), CurrentlyAvailable(now))
  }

  /** The available members keep database order, and a member is available exactly when it
      is in the database roster, its id is a ServiceNow user name, and the gate admits it. */
  lemma AvailableMembersCorrect(snMembers: seq<SnMember>, dbMembers: seq<MemberData>, now: Instant)
    ensures IsSubsequence(AvailableMembers(snMembers, dbMembers, now), dbMembers)
    ensures forall m :: m in AvailableMembers(snMembers, dbMembers, now) <==>
              m in dbMembers && (exists j :: 0 <= j < |snMembers| && snMembers[j].user.userName == m.memberId)
              && IsMemberCurrentlyAvailable(m, now)
  {
    var names := UserNames(snMembers);
    var inSn := Filter(dbMembers, InServiceNow(names));
    FilterIsSubsequence(dbMembers, InServiceNow(names));
    FilterIsSubsequence(inSn, CurrentlyAvailable(now));
    SubsequenceTransitive(AvailableMembers(snMembers, dbMembers, now), inSn, dbMembers);
    forall m
      ensures m in AvailableMembers(snMembers, dbMembers, now) <==>
              m in dbMembers && (exists j :: 0 <= j < |snMembers| && snMembers[j].user.userName == m.memberId)
              && IsMemberCurrentlyAvailable(m, now)
    {
      FilterMembership(inSn, CurrentlyAvailable(now), m);
      FilterMembership(dbMembers, InServiceNow(names), m);
      if m.memberId in names {
        var j :| 0 <= j < |snMembers| && snMembers[j].user.userName == m.memberId;
      }
    }
  }

  method GetAvailableMembers(snMembers: seq<SnMember>, dbMembers: Result<seq<MemberData>, IncidentAssignmentError>,
                             now: Instant)
    returns (r: Result<seq<MemberData>, IncidentAssignmentError>)
    ensures dbMembers.Failure? ==> r == Failure(dbMembers.error)
    ensures dbMembers.Success? ==> r == Success(AvailableMembers(snMembers, dbMembers.value, now))
    ensures dbMembers.Success? && dbMembers.value == [] ==> r == Success([])
  {
    if dbMembers.Failure? {
      return Failure(dbMembers.error);
    }
    var db := dbMembers.value;
    if |db| == 0 {
      return Success([]);
    }
    var names := UserNames(snMembers);
    var availableMembers: seq<MemberData> := [];
    var i := 0;
    while i < |db|
      invariant 0 <= i <= |db|
      invariant availableMembers == Filter(db[..i], InServiceNow(names))
    {
      FilterPrefixStep(db, i, InServiceNow(names));
      if db[i].memberId in names {
        availableMembers := availableMembers + [db[i]];
      }
      i := i + 1;
    }
    assert db[..i] == db;
    var filteredMembers: seq<MemberData> := [];
    var k := 0;
    while k < |availableMembers|
      invariant 0 <= k <= |availableMembers|
      invariant filteredMembers == Filter(availableMembers[..k], CurrentlyAvailable(now))
    {
      FilterPrefixStep(availableMembers, k, CurrentlyAvailable(now));
      if IsMemberCurrentlyAvailable(availableMembers[k], now) {
        filteredMembers := filteredMembers + [availableMembers[k]];
      }
      k := k + 1;
    }
    assert availableMembers[..k] == availableMembers;
    r := Success(filteredMembers);
  }

  // ---------------------------------------------------------------------------------------
  // First match by user name

  /** The first entry whose user name is the id. */
  function FirstWithUserName(snMembers: seq<SnMember>, id: string): (r: Option<SnMember>)
    ensures r.None? <==> forall j :: 0 <= j < |snMembers| ==> snMembers[j].user.userName != id
    ensures r.Some? ==>
              exists i :: 0 <= i < |snMembers| && snMembers[i] == r.value && r.value.user.userName == id
                && forall j :: 0 <= j < i ==> snMembers[j].user.userName != id
  {
    if snMembers == [] then None
    else if snMembers[0].user.userName == id then Some(snMembers[0])
    else
      var rest := FirstWithUserName(snMembers[1..], id);
      assert rest.Some? ==>
        exists i :: 0 <= i < |snMembers[1..]| && snMembers[1..][i] == rest.value
          && forall j :: 0 <= j < i ==> snMembers[1..][j].user.userName != id;
      assert rest.Some? ==>
        exists i :: 1 <= i < |snMembers| && snMembers[i] == rest.value
          && forall j :: 0 <= j < i ==> snMembers[j].user.userName != id;
      rest
  }

  /** find_servicenow_member. */
  method FindServiceNowMember(snMembers: seq<SnMember>, id: string) returns (r: Option<SnMember>)
    ensures r == FirstWithUserName(snMembers, id)
  {
    var i := 0;
    while i < |snMembers|
      invariant 0 <= i <= |snMembers|
      invariant FirstWithUserName(snMembers[i..], id) == FirstWithUserName(snMembers, id)
    {
      assert snMembers[i..][1..] == snMembers[i + 1..];
      if snMembers[i].user.userName == id {
        return Some(snMembers[i]);
      }
      i := i + 1;
    }
    return None;
  }

  // ---------------------------------------------------------------------------------------
  // Workloads

  /** The open incidents of one member: a failed or empty user lookup, or a failed incident
      query, leaves the member with no incidents. */
  function MemberWorkload(id: string, lookupUser: string -> Result<Option<SnUser>, IncidentAssignmentError>,
                          memberIncidents: string -> Result<seq<WC.OpenIncident>, IncidentAssignmentError>)
    : seq<WC.OpenIncident>
  {
    match lookupUser(id)
    case Failure(_) => []
    case Success(None) => []
    case Success(Some(user)) =>
      match memberIncidents(user.sysId)
      case Failure(_) => []
      case Success(incidents) => incidents
  }

  predicate IsMemberId(members: seq<MemberData>, id: string) {
    exists k :: 0 <= k < |members| && members[k].memberId == id
  }

  /** get_member_workloads: every available member gets a key, and no error escapes. */
  method GetMemberWorkloads(available: seq<MemberData>,
                            lookupUser: string -> Result<Option<SnUser>, IncidentAssignmentError>,
                            memberIncidents: string -> Result<seq<WC.OpenIncident>, IncidentAssignmentError>)
    returns (workloads: map<string, seq<WC.OpenIncident>>)
    ensures forall id :: id in workloads <==> IsMemberId(available, id)
    ensures forall id :: id in workloads ==> workloads[id] == MemberWorkload(id, lookupUser, memberIncidents)
  {
    workloads := map[];
    var i := 0;
    while i < |available|
      invariant 0 <= i <= |available|
      invariant forall id :: id in workloads <==> IsMemberId(available[..i], id)
      invariant forall id :: id in workloads ==> workloads[id] == MemberWorkload(id, lookupUser, memberIncidents)
    {
      var member := available[i];
      assert forall k :: 0 <= k < i ==> available[..i + 1][k] == available[..i][k];
      assert available[..i + 1][i] == member;
      var user := lookupUser(member.memberId);
      if user.Failure? || user.value.None? {
        workloads := workloads[member.memberId := []];
      } else {
        var incidents := memberIncidents(user.value.value.sysId);
        if incidents.Failure? {
          workloads := workloads[member.memberId := []];
        } else {
          workloads := workloads[member.memberId := incidents.value];
        }
      }
      i := i + 1;
    }
    assert available[..i] == available;
  }

  /** The workload map, as a value. */
  function WorkloadsOf(available: seq<MemberData>,
                       lookupUser: string -> Result<Option<SnUser>, IncidentAssignmentError>,
                       memberIncidents: string -> Result<seq<WC.OpenIncident>, IncidentAssignmentError>)
    : map<string, seq<WC.OpenIncident>>
  {
    map k | 0 <= k < |available| :: available[k].memberId := MemberWorkload(available[k].memberId, lookupUser, memberIncidents)
  }

  /** Any map with the keys and values get_member_workloads promises is WorkloadsOf. */
  lemma WorkloadsUnique(available: seq<MemberData>, w: map<string, seq<WC.OpenIncident>>,
                        lookupUser: string -> Result<Option<SnUser>, IncidentAssignmentError>,
                        memberIncidents: string -> Result<seq<WC.OpenIncident>, IncidentAssignmentError>)
    requires forall id :: id in w <==> IsMemberId(available, id)
    requires forall id :: id in w ==> w[id] == MemberWorkload(id, lookupUser, memberIncidents)
    ensures w == WorkloadsOf(available, lookupUser, memberIncidents)
  {
    var spec := WorkloadsOf(available, lookupUser, memberIncidents);
    forall id
      ensures id in spec <==> IsMemberId(available, id)
    {
      if IsMemberId(available, id) {
        var k :| 0 <= k < |available| && available[k].memberId == id;
        assert id in spec;
      }
    }
    assert w.Keys == spec.Keys;
  }

  // ---------------------------------------------------------------------------------------
  // Processing one incident

  /** What the external calls return while one incident is processed. startLogError and
      handlerLogError are the DatabaseError (if any) of the processing-log write at the start
      and in the exception handler; decisionLogError that of writing the decision, which the
      source swallows. assign(sys_id) is assign_incident_to_member for this incident. */
  datatype AssignmentEnv = AssignmentEnv(
    startLogError: Option<IncidentAssignmentError>,
    groupMembers: Result<seq<SnMember>, IncidentAssignmentError>,
    dbMembers: Result<seq<MemberData>, IncidentAssignmentError>,
    lookupUser: string -> Result<Option<SnUser>, IncidentAssignmentError>,
    memberIncidents: string -> Result<seq<WC.OpenIncident>, IncidentAssignmentError>,
    assign: string -> Result<bool, IncidentAssignmentError>,
    decisionLogError: Option<IncidentAssignmentError>,
    handlerLogError: Option<IncidentAssignmentError>,
    now: Instant,
    timestamp: string)

  /** A row written to the processing log. */
  datatype ProcessingLogRecord = ProcessingLogRecord(stage: string, level: string, message: string, details: string)

  /** The processing-log row each except clause writes before returning False. */
  function HandlerLog(e: Raised): ProcessingLogRecord {
    if e.AppError? && e.error.NoAvailableMembersError? then
      ProcessingLogRecord("ASSIGN", "WARNING", "No available members for assignment", ErrorText(e))
    else if e.AppError? && e.error.WeightCalculationError? then
      ProcessingLogRecord("CALCULATE", "ERROR", "Weight calculation failed", ErrorText(e))
    else if e.AppError? && e.error.ServiceNowError? then
      ProcessingLogRecord("ASSIGN", "ERROR", "ServiceNow assignment failed", ErrorText(e))
    else
      ProcessingLogRecord("ASSIGN", "ERROR", "Unexpected processing error", ErrorText(e))
  }

  datatype Outcome =
      /** assign returned True; the decision was written unless that write failed. */
    | Assigned(selected: WC.MemberWeight, assignee: string, logEntry: Utils.AssignmentLogEntry, logged: bool)
    | NoServiceNowMembers
    | WinnerNotInServiceNow(selected: WC.MemberWeight)
    | AssignRejected(selected: WC.MemberWeight, assignee: string)
      /** An exception was caught and logged; the result is False. */
    | Handled(error: Raised, log: ProcessingLogRecord)
      /** The handler's own log write raised: the error leaves process_incident_assignment. */
    | Escaped(error: Raised)
  {
    /** The bool process_incident_assignment returns, when it returns. */
    predicate Success() { Assigned? }
  }

  /** str() of the assignment_group value in the f-string messages. */
  function GroupText(f: JsonField): string {
    if f.Text? then f.text else "None"
  }

  /** incident_data.get('priority', '4'). */
  function IncidentPriority(msg: IncidentMessage): Option<string> {
    if msg.priority.Absent? then Some("4") else msg.priority.Get()
  }

  /** The ranked candidates, once the roster and workloads are known. */
  function Ranking(cw: WC.Calculator, msg: IncidentMessage, env: AssignmentEnv, available: seq<MemberData>)
    : Result<seq<WC.MemberWeight>, IncidentAssignmentError>
  {
    WC.MemberWeightsResult(cw, available, WorkloadsOf(available, env.lookupUser, env.memberIncidents),
                           IncidentPriority(msg), env.now)
  }

  /** The try block from the selection on: the ServiceNow lookup, the assign call and the
      decision log. */
  function AfterRanking(msg: IncidentMessage, env: AssignmentEnv, snMembers: seq<SnMember>,
                        ranked: seq<WC.MemberWeight>): Result<Outcome, Raised>
    requires ranked != []
  {
    var best := ranked[0];
    var reason := WC.AssignmentReason(best.memberName, WC.ReasonPhrases(best), best.finalWeight);
    match FirstWithUserName(snMembers, best.memberId)
    case None => Success(WinnerNotInServiceNow(best))
    case Some(snMember) =>
      var accepted := env.assign(snMember.user.sysId);
      if !(accepted.Success? && accepted.value) then Success(AssignRejected(best, snMember.user.sysId))
      else
        match Utils.CreateAssignmentLogEntry(msg, best, WC.WeightsSummaryOf(ranked, env.timestamp), reason)
        case Failure(key) => Failure(KeyError(key))
        case Success(entry) => Success(Assigned(best, snMember.user.sysId, entry, env.decisionLogError.None?))
  }

  /** The body of the try block of process_incident_assignment: an outcome, or the exception
      it raises. */
  function Attempt(cw: WC.Calculator, msg: IncidentMessage, env: AssignmentEnv): Result<Outcome, Raised> {
    if env.startLogError.Some? then Failure(AppError(env.startLogError.value))
    else if env.groupMembers.Failure? then Failure(AppError(env.groupMembers.error))
    else if env.groupMembers.value == [] then Success(NoServiceNowMembers)
    else if env.dbMembers.Failure? then Failure(AppError(env.dbMembers.error))
    else
      var available := AvailableMembers(env.groupMembers.value, env.dbMembers.value, env.now);
      if available == [] then
        Failure(AppError(NoAvailableMembersError("No available members for group " + GroupText(msg.assignmentGroup))))
      else
        match Ranking(cw, msg, env, available)
        case Failure(e) => Failure(AppError(e))
        case Success(ranked) =>
          WC.RankByFinalWeightSorted(WC.ScoredMembers(cw, available, WorkloadsOf(available, env.lookupUser, env.memberIncidents),
                                                       IncidentPriority(msg), env.now));
          AfterRanking(msg, env, env.groupMembers.value, ranked)
  }

  /** process_incident_assignment, as a function of its inputs. */
  function AssignmentOutcome(cw: WC.Calculator, msg: IncidentMessage, env: AssignmentEnv): Outcome {
    match Attempt(cw, msg, env)
    case Success(outcome) => outcome
    case Failure(e) => if env.handlerLogError.Some? then Escaped(AppError(env.handlerLogError.value)) else Handled(e, HandlerLog(e))
  }

  /** log_assignment_decision, up to the database writes: the summary and the log entry,
      or the KeyError building the entry raises. */
  method LogAssignmentDecision(msg: IncidentMessage, selected: WC.MemberWeight, memberWeights: seq<WC.MemberWeight>,
                               reason: WC.AssignmentReason, timestamp: string)
    returns (r: Result<Utils.AssignmentLogEntry, Raised>)
    ensures r.Failure? <==> msg.incidentNumber.Absent? || msg.assignmentGroup.Absent? || msg.priority.Absent?
    ensures r.Failure? ==>
              r.error == KeyError(Utils.CreateAssignmentLogEntry(msg, selected, WC.WeightsSummaryOf(memberWeights, timestamp), reason).error)
    ensures r.Success? ==>
              Success(r.value) == Utils.CreateAssignmentLogEntry(msg, selected, WC.WeightsSummaryOf(memberWeights, timestamp), reason)
              && r.value.calculatedWeights.totalMembersEvaluated == |memberWeights|
  {
    var summary := WC.GetWeightsSummary(memberWeights, timestamp);
    var entry := Utils.CreateAssignmentLogEntry(msg, selected, summary, reason);
    if entry.Failure? {
      return Failure(KeyError(entry.error));
    }
    r := Success(entry.value);
  }

  /** The part of the try block that follows the ranking. */
  method AssignBest(msg: IncidentMessage, env: AssignmentEnv, snMembers: seq<SnMember>, ranked: seq<WC.MemberWeight>)
    returns (r: Result<Outcome, Raised>)
    requires ranked != []
    ensures r == AfterRanking(msg, env, snMembers, ranked)
  {
    var selection := WC.SelectBestMember(ranked);
    var selected, reason := selection.value.0, selection.value.1;
    var snMember := FindServiceNowMember(snMembers, selected.memberId);
    if snMember.None? {
      return Success(WinnerNotInServiceNow(selected));
    }
    var sysId := snMember.value.user.sysId;
    var accepted := env.assign(sysId);
    var assignmentSuccess := accepted.Success? && accepted.value;
    if !assignmentSuccess {
      return Success(AssignRejected(selected, sysId));
    }
    var entry := LogAssignmentDecision(msg, selected, ranked, reason, env.timestamp);
    if entry.Failure? {
      return Failure(entry.error);
    }
    r := Success(Assigned(selected, sysId, entry.value, env.decisionLogError.None?));
  }

  /** The try block of process_incident_assignment. */
  method TryAssign(cw: WC.Calculator, msg: IncidentMessage, env: AssignmentEnv) returns (r: Result<Outcome, Raised>)
    ensures r == Attempt(cw, msg, env)
  {
    if env.startLogError.Some? {
      return Failure(AppError(env.startLogError.value));
    }
    if env.groupMembers.Failure? {
      return Failure(AppError(env.groupMembers.error));
    }
    var snMembers := env.groupMembers.value;
    if |snMembers| == 0 {
      return Success(NoServiceNowMembers);
    }
    var available := GetAvailableMembers(snMembers, env.dbMembers, env.now);
    if available.Failure? {
      return Failure(AppError(available.error));
    }
    if |available.value| == 0 {
      return Failure(AppError(NoAvailableMembersError("No available members for group " + GroupText(msg.assignmentGroup))));
    }
    var workloads := GetMemberWorkloads(available.value, env.lookupUser, env.memberIncidents);
    WorkloadsUnique(available.value, workloads, env.lookupUser, env.memberIncidents);
    var memberWeights := WC.CalculateMemberWeights(cw, available.value, workloads, IncidentPriority(msg), env.now);
    if memberWeights.Failure? {
      return Failure(AppError(memberWeights.error));
    }
    r := AssignBest(msg, env, snMembers, memberWeights.value);
  }

  method ProcessIncidentAssignment(cw: WC.Calculator, msg: IncidentMessage, env: AssignmentEnv) returns (outcome: Outcome)
    ensures outcome == AssignmentOutcome(cw, msg, env)
  {
    var attempt := TryAssign(cw, msg, env);
    if attempt.Success? {
      return attempt.value;
    }
    if env.handlerLogError.Some? {
      return Escaped(AppError(env.handlerLogError.value));
    }
    outcome := Handled(attempt.error, HandlerLog(attempt.error));
  }


  // ---------------------------------------------------------------------------------------
  // What process_incident_assignment promises

  /** The available roster, when the try block gets as far as computing it. */
  function Roster(env: AssignmentEnv): Option<seq<MemberData>> {
    if env.startLogError.Some? || env.groupMembers.Failure? || env.groupMembers.value == [] || env.dbMembers.Failure? then None
    else Some(AvailableMembers(env.groupMembers.value, env.dbMembers.value, env.now))
  }

  /** The ranked candidates, when the try block gets as far as ranking them. */
  function Candidates(cw: WC.Calculator, msg: IncidentMessage, env: AssignmentEnv): Option<seq<WC.MemberWeight>> {
    match Roster(env)
    case None => None
    case Some(available) =>
      if available == [] then None
      else
        match Ranking(cw, msg, env, available)
        case Failure(_) => None
        case Success(ranked) => Some(ranked)
  }

  /** The candidates are non-empty, ranked by non-increasing final weight, and each is a
      member of the available roster. */
  lemma CandidatesCorrect(cw: WC.Calculator, msg: IncidentMessage, env: AssignmentEnv)
    requires Candidates(cw, msg, env).Some?
    ensures Roster(env).Some? && env.groupMembers.Success? && env.dbMembers.Success?
    ensures var ranked := Candidates(cw, msg, env).value;
            && ranked != []
            && (forall i, j :: 0 <= i < j < |ranked| ==> ranked[i].finalWeight >= ranked[j].finalWeight)
            && (forall mw :: mw in ranked ==> exists m :: m in Roster(env).value && m.memberId == mw.memberId)
  {
    var available := Roster(env).value;
    var workloads := WorkloadsOf(available, env.lookupUser, env.memberIncidents);
    var ranked := Candidates(cw, msg, env).value;
    RankedFromRoster(cw, available, workloads, IncidentPriority(msg), env.now, ranked);
  }

  /** The same facts about any successful ranking of a roster. */
  lemma RankedFromRoster(cw: WC.Calculator, available: seq<MemberData>, workloads: map<string, seq<WC.OpenIncident>>,
                         priority: Option<string>, now: Instant, ranked: seq<WC.MemberWeight>)
    requires WC.MemberWeightsResult(cw, available, workloads, priority, now) == Success(ranked)
    ensures ranked != []
    ensures forall i, j :: 0 <= i < j < |ranked| ==> ranked[i].finalWeight >= ranked[j].finalWeight
    ensures forall mw :: mw in ranked ==> exists m :: m in available && m.memberId == mw.memberId
  {
    var scored := WC.ScoredMembers(cw, available, workloads, priority, now);
    assert ranked == WC.RankByFinalWeight(scored);
    WC.RankByFinalWeightSorted(scored);
    assert multiset(ranked) == multiset(scored);
    WC.ScoredMembersFromRoster(cw, available, workloads, priority, now);
    forall mw | mw in ranked
      ensures exists m :: m in available && m.memberId == mw.memberId
    {
      assert mw in multiset(ranked);
      assert mw in scored;
      var m :| m in available && WC.ScoreMember(cw, m, workloads, priority, now) == Some(mw);
      assert m.memberId == mw.memberId;
    }
  }

  /** The head of the ranking, once there are candidates. */
  function ChosenWeight(cw: WC.Calculator, msg: IncidentMessage, env: AssignmentEnv): WC.MemberWeight
    requires Candidates(cw, msg, env).Some?
  {
    CandidatesCorrect(cw, msg, env);
    Candidates(cw, msg, env).value[0]
  }

  /** The ServiceNow entry of the chosen member, once there are candidates. */
  function ChosenEntry(cw: WC.Calculator, msg: IncidentMessage, env: AssignmentEnv): Option<SnMember>
    requires Candidates(cw, msg, env).Some?
  {
    CandidatesCorrect(cw, msg, env);
    FirstWithUserName(env.groupMembers.value, ChosenWeight(cw, msg, env).memberId)
  }

  /** The chosen member is always found in the ServiceNow list: the roster was filtered on
      that list's user names. */
  lemma WinnerAlwaysInServiceNow(cw: WC.Calculator, msg: IncidentMessage, env: AssignmentEnv)
    requires Candidates(cw, msg, env).Some?
    ensures ChosenEntry(cw, msg, env).Some?
  {
    CandidatesCorrect(cw, msg, env);
    var sn, db := env.groupMembers.value, env.dbMembers.value;
    var best := Candidates(cw, msg, env).value[0];
    var m :| m in AvailableMembers(sn, db, env.now) && m.memberId == best.memberId;
    AvailableMembersCorrect(sn, db, env.now);
    var j :| 0 <= j < |sn| && sn[j].user.userName == m.memberId;
  }

  /** So the "could not find ServiceNow user" return of process_incident_assignment never
      happens. */
  lemma NeverWinnerNotInServiceNow(cw: WC.Calculator, msg: IncidentMessage, env: AssignmentEnv)
    ensures !AssignmentOutcome(cw, msg, env).WinnerNotInServiceNow?
  {
    CandidatesDriveAttempt(cw, msg, env);
    if Candidates(cw, msg, env).Some? {
      WinnerAlwaysInServiceNow(cw, msg, env);
    }
  }

  /** Attempt, read through Candidates: without candidates it never reaches the assign call;
      with them, it is AfterRanking. */
  lemma CandidatesDriveAttempt(cw: WC.Calculator, msg: IncidentMessage, env: AssignmentEnv)
    ensures Candidates(cw, msg, env).None? ==>
              Attempt(cw, msg, env).Failure? || Attempt(cw, msg, env) == Success(NoServiceNowMembers)
    ensures Candidates(cw, msg, env).Some? ==>
              Attempt(cw, msg, env) == AfterRanking(msg, env, env.groupMembers.value, Candidates(cw, msg, env).value)
  {
  }

  /** process_incident_assignment returns True exactly when it gets to the assign call, that
      call returns True, and the decision's log entry can be built. */
  lemma AssignedExactly(cw: WC.Calculator, msg: IncidentMessage, env: AssignmentEnv)
    ensures AssignmentOutcome(cw, msg, env).Success() <==>
              && Candidates(cw, msg, env).Some?
              && ChosenEntry(cw, msg, env).Some?
              && env.assign(ChosenEntry(cw, msg, env).value.user.sysId) == Success(true)
              && !msg.incidentNumber.Absent? && !msg.assignmentGroup.Absent? && !msg.priority.Absent?
  {
    if AssignmentOutcome(cw, msg, env).Success() {
      AssignedChosenMember(cw, msg, env);
    }
    if && Candidates(cw, msg, env).Some?
       && ChosenEntry(cw, msg, env).Some?
       && env.assign(ChosenEntry(cw, msg, env).value.user.sysId) == Success(true)
       && !msg.incidentNumber.Absent? && !msg.assignmentGroup.Absent? && !msg.priority.Absent?
    {
      AssignedIfAccepted(cw, msg, env);
    }
  }

  /** When it returns True, there were candidates, the assign call for the head's ServiceNow
      entry returned True and the message carries the keys of the log entry; the member
      chosen is the head of the ranking, the assignee is that entry's sys_id, and the
      decision was written unless that write failed. */
  lemma AssignedChosenMember(cw: WC.Calculator, msg: IncidentMessage, env: AssignmentEnv)
    requires AssignmentOutcome(cw, msg, env).Success()
    ensures Candidates(cw, msg, env).Some? && ChosenEntry(cw, msg, env).Some?
    ensures env.assign(ChosenEntry(cw, msg, env).value.user.sysId) == Success(true)
    ensures !msg.incidentNumber.Absent? && !msg.assignmentGroup.Absent? && !msg.priority.Absent?
    ensures AssignmentOutcome(cw, msg, env).selected == ChosenWeight(cw, msg, env)
    ensures AssignmentOutcome(cw, msg, env).assignee == ChosenEntry(cw, msg, env).value.user.sysId
    ensures AssignmentOutcome(cw, msg, env).logged == env.decisionLogError.None?
  {
    OutcomeThroughCandidates(cw, msg, env);
    var ranked := Candidates(cw, msg, env).value;
    assert ChosenWeight(cw, msg, env) == ranked[0];
    assert ChosenEntry(cw, msg, env) == FirstWithUserName(env.groupMembers.value, ranked[0].memberId);
    AfterRankingAssigned(msg, env, env.groupMembers.value, ranked);
  }

  /** With candidates, an accepted assign call for the head's ServiceNow entry and the keys
      of the log entry present, the result is True. */
  lemma AssignedIfAccepted(cw: WC.Calculator, msg: IncidentMessage, env: AssignmentEnv)
    requires Candidates(cw, msg, env).Some? && ChosenEntry(cw, msg, env).Some?
    requires env.assign(ChosenEntry(cw, msg, env).value.user.sysId) == Success(true)
    requires !msg.incidentNumber.Absent? && !msg.assignmentGroup.Absent? && !msg.priority.Absent?
    ensures AssignmentOutcome(cw, msg, env).Success()
  {
    OutcomeThroughCandidates(cw, msg, env);
    var ranked := Candidates(cw, msg, env).value;
    assert ChosenEntry(cw, msg, env) == FirstWithUserName(env.groupMembers.value, ranked[0].memberId);
    AfterRankingAssigned(msg, env, env.groupMembers.value, ranked);
  }

  /** The outcome read through Candidates: an assignment needs candidates, and with them it
      is the assignment AfterRanking makes. */
  lemma OutcomeThroughCandidates(cw: WC.Calculator, msg: IncidentMessage, env: AssignmentEnv)
    ensures Candidates(cw, msg, env).None? ==> !AssignmentOutcome(cw, msg, env).Success()
    ensures Candidates(cw, msg, env).Some? ==>
              var r := AfterRanking(msg, env, env.groupMembers.value, Candidates(cw, msg, env).value);
              && (AssignmentOutcome(cw, msg, env).Success() <==> r.Success? && r.value.Assigned?)
              && (AssignmentOutcome(cw, msg, env).Success() ==> AssignmentOutcome(cw, msg, env) == r.value)
  {
    CandidatesDriveAttempt(cw, msg, env);
  }

  /** After the ranking, the outcome is an assignment exactly when the head of the ranking
      has a ServiceNow entry, the assign call for it returns True and the log entry can be
      built; the assignment then names that member and that entry's sys_id. */
  lemma AfterRankingAssigned(msg: IncidentMessage, env: AssignmentEnv, snMembers: seq<SnMember>,
                             ranked: seq<WC.MemberWeight>)
    requires ranked != []
    ensures var r := AfterRanking(msg, env, snMembers, ranked);
            var entry := FirstWithUserName(snMembers, ranked[0].memberId);
            (r.Success? && r.value.Assigned?) <==>
              && entry.Some?
              && env.assign(entry.value.user.sysId) == Success(true)
              && !msg.incidentNumber.Absent? && !msg.assignmentGroup.Absent? && !msg.priority.Absent?
    ensures var r := AfterRanking(msg, env, snMembers, ranked);
            var entry := FirstWithUserName(snMembers, ranked[0].memberId);
            r.Success? && r.value.Assigned? ==>
              && entry.Some?
              && r.value.selected == ranked[0]
              && r.value.assignee == entry.value.user.sysId
              && r.value.logged == env.decisionLogError.None?
  {
    var best := ranked[0];
    var reason := WC.AssignmentReason(best.memberName, WC.ReasonPhrases(best), best.finalWeight);
    var entry := FirstWithUserName(snMembers, best.memberId);
    if entry.Some? {
      var accepted := env.assign(entry.value.user.sysId);
      assert (accepted.Success? && accepted.value) <==> accepted == Success(true);
      var log := Utils.CreateAssignmentLogEntry(msg, best, WC.WeightsSummaryOf(ranked, env.timestamp), reason);
      assert log.Failure? <==> msg.incidentNumber.Absent? || msg.assignmentGroup.Absent? || msg.priority.Absent?;
    }
  }

  /** A failure to write the decision is swallowed: it changes neither the result nor
      anything but the logged flag. */
  lemma DecisionLogFailureKeepsResult(cw: WC.Calculator, msg: IncidentMessage, env: AssignmentEnv,
                                      e: Option<IncidentAssignmentError>)
    ensures AssignmentOutcome(cw, msg, env.(decisionLogError := e)).Success() == AssignmentOutcome(cw, msg, env).Success()
  {
    var env' := env.(decisionLogError := e);
    assert Candidates(cw, msg, env') == Candidates(cw, msg, env);
    AssignedExactly(cw, msg, env);
    AssignedExactly(cw, msg, env');
  }

  /** The messages the fetcher queues carry every key, so for them the only way from an
      accepted assign call to False is gone. */
  lemma FetchedMessageAssignedWhenAccepted(cw: WC.Calculator, incident: ServiceNowIncident, group: string,
                                           timestamp: string, env: AssignmentEnv)
    requires var msg := Utils.FormatIncidentForSqs(incident, group, timestamp);
             Candidates(cw, msg, env).Some? && ChosenEntry(cw, msg, env).Some?
             && env.assign(ChosenEntry(cw, msg, env).value.user.sysId) == Success(true)
    ensures AssignmentOutcome(cw, Utils.FormatIncidentForSqs(incident, group, timestamp), env).Success()
  {
    AssignedIfAccepted(cw, Utils.FormatIncidentForSqs(incident, group, timestamp), env);
  }

  /** A roster with nobody available is reported through the no-available-members handler
      with a warning, and the result is False. */
  lemma NobodyAvailableIsHandled(cw: WC.Calculator, msg: IncidentMessage, env: AssignmentEnv)
    requires env.startLogError.None? && env.groupMembers.Success? && env.groupMembers.value != []
    requires env.dbMembers.Success? && AvailableMembers(env.groupMembers.value, env.dbMembers.value, env.now) == []
    requires env.handlerLogError.None?
    ensures var outcome := AssignmentOutcome(cw, msg, env);
            && outcome.Handled?
            && outcome.error == AppError(NoAvailableMembersError("No available members for group " + GroupText(msg.assignmentGroup)))
            && outcome.log.level == "WARNING" && outcome.log.message == "No available members for assignment"
  {
  }

  /** With non-negative priority weights every available member is scored, so whenever
      someone is available the weight calculation succeeds. */
  lemma NonNegativeWeightsAlwaysRank(cw: WC.Calculator, msg: IncidentMessage, env: AssignmentEnv)
    requires WC.NonNegativeWeights(cw)
    requires Roster(env).Some? && Roster(env).value != []
    ensures Candidates(cw, msg, env).Some?
  {
    var available := Roster(env).value;
    WC.NonNegativeWeightsScoreEveryone(cw, available, WorkloadsOf(available, env.lookupUser, env.memberIncidents),
                                       IncidentPriority(msg), env.now);
  }

  // ---------------------------------------------------------------------------------------
  // A batch of queue messages

  datatype ProcessingResults = ProcessingResults(
    messagesProcessed: nat,
    assignmentsSuccessful: nat,
    assignmentsFailed: nat,
    errors: seq<string>)

  const INVALID_MESSAGE: string := "Invalid message format"

  /** What happened to each message: None when parse_sqs_message gives nothing, otherwise
      the outcome of processing it. */
  function OutcomesOf(cw: WC.Calculator, messages: seq<Option<IncidentMessage>>, envOf: nat -> AssignmentEnv)
    : (r: seq<Option<Outcome>>)
    ensures |r| == |messages|
    ensures forall i :: 0 <= i < |messages| ==>
              r[i] == if messages[i].None? then None else Some(AssignmentOutcome(cw, messages[i].value, envOf(i)))
  {
    seq(|messages|, i requires 0 <= i < |messages| =>
          if messages[i].None? then None else Some(AssignmentOutcome(cw, messages[i].value, envOf(i))))
  }

  /** The bookkeeping for the message at position i. */
  function Step(r: ProcessingResults, deleted: seq<nat>, o: Option<Outcome>, i: nat): (ProcessingResults, seq<nat>) {
    match o
    case None => (r.(errors := r.errors + [INVALID_MESSAGE]), deleted)
    case Some(outcome) =>
      var r' := r.(messagesProcessed := r.messagesProcessed + 1);
      if outcome.Escaped? then
        (r'.(assignmentsFailed := r'.assignmentsFailed + 1, errors := r'.errors + [ErrorText(outcome.error)]), deleted)
      else if outcome.Success() then (r'.(assignmentsSuccessful := r'.assignmentsSuccessful + 1), deleted + [i])
      else (r'.(assignmentsFailed := r'.assignmentsFailed + 1), deleted)
  }

  /** The results and the deleted message positions after the first n messages. */
  function Tally(outcomes: seq<Option<Outcome>>, n: nat): (ProcessingResults, seq<nat>)
    requires n <= |outcomes|
  {
    if n == 0 then (ProcessingResults(0, 0, 0, []), [])
    else Step(Tally(outcomes, n - 1).0, Tally(outcomes, n - 1).1, outcomes[n - 1], n - 1)
  }

  /** The bookkeeping of one iteration of the loop of process_sqs_messages, once the
      message's outcome is known. */
  method CountOutcome(results: ProcessingResults, deleted: seq<nat>, o: Option<Outcome>, i: nat)
    returns (results': ProcessingResults, deleted': seq<nat>)
    ensures (results', deleted') == Step(results, deleted, o, i)
  {
    if o.None? {
      return results.(errors := results.errors + [INVALID_MESSAGE]), deleted;
    }
    results' := results.(messagesProcessed := results.messagesProcessed + 1);
    deleted' := deleted;
    var outcome := o.value;
    if outcome.Escaped? {
      results' := results'.(assignmentsFailed := results'.assignmentsFailed + 1,
                            errors := results'.errors + [ErrorText(outcome.error)]);
    } else if outcome.Success() {
      results' := results'.(assignmentsSuccessful := results'.assignmentsSuccessful + 1);
      deleted' := deleted + [i];
    } else {
      results' := results'.(assignmentsFailed := results'.assignmentsFailed + 1);
    }
  }

  /** One iteration of the loop of process_sqs_messages. */
  method ProcessMessage(cw: WC.Calculator, message: Option<IncidentMessage>, env: AssignmentEnv, i: nat,
                        results: ProcessingResults, deleted: seq<nat>)
    returns (results': ProcessingResults, deleted': seq<nat>)
    ensures (results', deleted') ==
            Step(results, deleted, if message.None? then None else Some(AssignmentOutcome(cw, message.value, env)), i)
  {
    var o: Option<Outcome> := None;
    if message.Some? {
      var outcome := ProcessIncidentAssignment(cw, message.value, env);
      o := Some(outcome);
    }
    results', deleted' := CountOutcome(results, deleted, o, i);
  }

  /** process_sqs_messages; envOf(i) holds what the calls return for the i-th message. The
      second result lists the positions of the messages deleted from the queue. */
  method ProcessSqsMessages(cw: WC.Calculator, messages: seq<Option<IncidentMessage>>, envOf: nat -> AssignmentEnv)
    returns (results: ProcessingResults, deleted: seq<nat>)
    ensures (results, deleted) == Tally(OutcomesOf(cw, messages, envOf), |messages|)
    ensures results.messagesProcessed + InvalidCount(OutcomesOf(cw, messages, envOf), |messages|) == |messages|
    ensures results.assignmentsSuccessful + results.assignmentsFailed == results.messagesProcessed
    ensures forall i :: i in deleted <==>
              0 <= i < |messages| && messages[i].Some? && AssignmentOutcome(cw, messages[i].value, envOf(i)).Success()
  {
    ghost var outcomes := OutcomesOf(cw, messages, envOf);
    results := ProcessingResults(0, 0, 0, []);
    deleted := [];
    var i := 0;
    while i < |messages|
      invariant 0 <= i <= |messages|
      invariant (results, deleted) == Tally(outcomes, i)
    {
      results, deleted := ProcessMessage(cw, messages[i], envOf(i), i, results, deleted);
      i := i + 1;
    }
    TallyCounts(outcomes, |messages|);
  }

  function InvalidCount(outcomes: seq<Option<Outcome>>, n: nat): nat
    requires n <= |outcomes|
  {
    if n == 0 then 0 else InvalidCount(outcomes, n - 1) + (if outcomes[n - 1].None? then 1 else 0)
  }

  function EscapedCount(outcomes: seq<Option<Outcome>>, n: nat): nat
    requires n <= |outcomes|
  {
    if n == 0 then 0
    else EscapedCount(outcomes, n - 1) + (if outcomes[n - 1].Some? && outcomes[n - 1].value.Escaped? then 1 else 0)
  }

  /** Every message is either invalid or processed; every processed one either succeeded or
      failed; one error line per invalid message and per escaped exception; and exactly the
      successfully assigned messages are deleted, in order. */
  lemma {:induction false} TallyCounts(outcomes: seq<Option<Outcome>>, n: nat)
    requires n <= |outcomes|
    ensures var (r, deleted) := Tally(outcomes, n);
            && r.messagesProcessed + InvalidCount(outcomes, n) == n
            && r.assignmentsSuccessful + r.assignmentsFailed == r.messagesProcessed
            && |r.errors| == InvalidCount(outcomes, n) + EscapedCount(outcomes, n)
            && |deleted| == r.assignmentsSuccessful
            && (forall a, b :: 0 <= a < b < |deleted| ==> deleted[a] < deleted[b])
            && (forall i :: i in deleted <==> 0 <= i < n && outcomes[i].Some? && outcomes[i].value.Success())
  {
    if n > 0 {
      TallyCounts(outcomes, n - 1);
      var (_, before) := Tally(outcomes, n - 1);
      var (_, after) := Tally(outcomes, n);
      assert forall i :: i in before ==> i < n - 1;
      if after != before {
        assert after == before + [n - 1];
        forall a, b | 0 <= a < b < |after|
          ensures after[a] < after[b]
        {
          if b == |after| - 1 {
            assert after[a] in before;
          }
        }
      }
    }
  }
}
