/** The queue-driven assignment path of processor.py: group members from ServiceNow, the
    member table filtered by shift at the incident's opening time, an additive workload score
    (lower is better) with a small random jitter, and the guarded assign sequence with a
    re-check of the incident immediately before the assign call. Every ServiceNow, database,
    clock and random-number call is an input of the model. */
module Processor {
  import opened Wrappers
  import opened Models
  import opened Sequences
  import opened Sorting
  import WC = WeightCalculator

  const PRIORITY_WEIGHT: map<string, real> := map["1" := 6.0, "2" := 3.0, "3" := 1.0, "4" := 0.5, "5" := 0.5]
  const SEVERITY_MULT: map<string, real> := map["1" := 1.3, "2" := 1.1, "3" := 1.0]
  const ROLE_MULT: map<string, real> := map["L1" := 1.20, "L2" := 1.00, "L3" := 0.90, "SME" := 0.85]

  /** Why a step raised: an HTTP error status from ServiceNow, a database error, or an
      opened_at value that datetime.fromisoformat rejects. */
  datatype Fault = RequestFailed(detail: string) | QueryFailed(detail: string) | BadTimestamp

  function Min(a: int, b: int): int { if a <= b then a else b }
  function Max(a: int, b: int): int { if a >= b then a else b }

  // ---------------------------------------------------------------------------------------
  // Group members (fetch_group_members_from_servicenow)

  /** The `user` field of a sys_user_grmember row: a reference object (whose `value` key may be
      missing) or a plain value (None when the key is missing or null). */
  datatype UserField = UserReference(value: Option<string>) | UserValue(id: Option<string>)

  function UserId(u: UserField): Option<string> {
    match u
    case UserReference(v) => v
    case UserValue(id) => id
  }

  /** id is the unwrapped, non-empty user of some row. */
  predicate IsGroupMember(rows: seq<UserField>, id: string) {
    id != "" && exists k :: 0 <= k < |rows| && UserId(rows[k]) == Some(id)
  }

  /** The set of truthy user ids of the rows. */
  function GroupIds(rows: seq<UserField>): set<string> {
    set k | 0 <= k < |rows| && UserId(rows[k]).Some? && UserId(rows[k]).value != "" :: UserId(rows[k]).value
  }

  lemma GroupIdsMembers(rows: seq<UserField>, id: string)
    ensures id in GroupIds(rows) <==> IsGroupMember(rows, id)
  {
    if IsGroupMember(rows, id) {
      var k :| 0 <= k < |rows| && UserId(rows[k]) == Some(id);
      assert UserId(rows[k]).value in GroupIds(rows);
    }
  }

  /** The member list of one group: each row's user unwrapped, the falsy ones dropped, the
      duplicates merged (the source returns list(set(...)), whose order is not modelled). */
  method GroupMemberIds(rows: seq<UserField>) returns (ids: set<string>)
    ensures ids == GroupIds(rows)
    ensures "" !in ids
    ensures forall id :: id in ids <==> IsGroupMember(rows, id)
  {
    var members: seq<Option<string>> := [];
    var i := 0;
    while i < |rows|
      invariant 0 <= i <= |rows|
      invariant |members| == i
      invariant forall k :: 0 <= k < i ==> members[k] == UserId(rows[k])
    {
      match rows[i] {
        case UserReference(v) => members := members + [v];
        case UserValue(id) => members := members + [id];
      }
      i := i + 1;
    }
    ids := set m | m in members && m.Some? && m.value != "" :: m.value;
    forall id
      ensures id in ids <==> id in GroupIds(rows)
    {
      if id in GroupIds(rows) {
        var k :| 0 <= k < |rows| && UserId(rows[k]).Some? && UserId(rows[k]).value == id && id != "";
        assert members[k] in members;
      }
    }
    forall id
      ensures id in ids <==> IsGroupMember(rows, id)
    {
      GroupIdsMembers(rows, id);
    }
  }

  // ---------------------------------------------------------------------------------------
  // Member rows filtered by shift (fetch_member_rows_from_db)

  /** strftime('%a') in the C locale, indexed by datetime.weekday(). */
  const WEEKDAY_ABBREVIATIONS: seq<string> := ["Mon", "Tue", "Wed", "Thu", "Fri", "Sat", "Sun"]

  function DayAbbreviation(d: Weekday): string {
    WEEKDAY_ABBREVIATIONS[d]
  }

  /** A row of the member table. shift_days is comma-separated text such as "Mon,Tue,Wed". */
  datatype MemberRow = MemberRow(
    memberSysId: string,
    assignmentGroupSysId: string,
    active: bool,
    memberName: Option<string>,
    role: Option<string>,
    weightModifier: Option<real>,
    shiftDays: Option<string>,
    weekendShiftFlag: bool,
    shiftStart: Option<TimeOfDay>,
    shiftEnd: Option<TimeOfDay>)

  /** r.get('shift_days') or '' */
  function ShiftDays(r: MemberRow): string {
    if r.shiftDays.Some? then r.shiftDays.value else ""
  }

  /** A row works at `at`: its day list mentions the day, both shift bounds are present, and
      the time lies in the window, which wraps past midnight when the start is after the end. */
  predicate OnShift(r: MemberRow, at: Instant) {
    && Contains(ShiftDays(r), DayAbbreviation(at.weekday))
    && r.shiftStart.Some? && r.shiftEnd.Some?
    && WC.IsTimeInShift(at.time, r.shiftStart.value, r.shiftEnd.value)
  }

  function OnShiftAt(at: Instant): MemberRow -> bool {
    (r: MemberRow) => OnShift(r, at)
  }

  /** The WHERE clause: member_sys_id IN ids AND assignment_group_sys_id = group AND active = 1.
      A NULL group parameter matches no row. */
  function Selects(ids: set<string>, group: Option<string>): MemberRow -> bool {
    (r: MemberRow) => r.memberSysId in ids && group == Some(r.assignmentGroupSysId) && r.active
  }

  /** The rows the query returns, in table order (the query has no ORDER BY). */
  function QueryRows(table: seq<MemberRow>, ids: set<string>, group: Option<string>): seq<MemberRow> {
    Filter(table, Selects(ids, group))
  }

  /** What fetch_member_rows_from_db returns: nothing (and no query) for an empty id list, the
      query's error, or the on-shift subsequence of the query's rows. */
  function MemberRowsOf(ids: set<string>, group: Option<string>, table: Result<seq<MemberRow>, Fault>,
                        at: Instant): Result<seq<MemberRow>, Fault>
  {
    if |ids| == 0 then Success([])
    else if table.Failure? then Failure(table.error)
    else Success(Filter(QueryRows(table.value, ids, group), OnShiftAt(at)))
  }

  /** The shift test of one queried row; every early exit is a row that is dropped. */
  method RowOnShift(row: MemberRow, at: Instant, weekday: string) returns (keep: bool)
    requires weekday == DayAbbreviation(at.weekday)
    ensures keep == OnShift(row, at)
  {
    var shiftDays := ShiftDays(row);
    if !Contains(shiftDays, weekday) {
      if at.weekday >= 5 && !row.weekendShiftFlag {
        return false;
      }
      if !Contains(shiftDays, weekday) {
        return false;
      }
    }
    if row.shiftStart.None? || row.shiftEnd.None? {
      return false;
    }
    var start, end := row.shiftStart.value, row.shiftEnd.value;
    if start <= at.time <= end {
      return true;
    }
    if start > end {
      if at.time >= start || at.time <= end {
        return true;
      }
    }
    return false;
  }

  method FetchMemberRows(memberIds: set<string>, groupSysId: Option<string>,
                         table: Result<seq<MemberRow>, Fault>, at: Instant)
    returns (r: Result<seq<MemberRow>, Fault>)
    ensures r == MemberRowsOf(memberIds, groupSysId, table, at)
    ensures |memberIds| == 0 ==> r == Success([])
    ensures r.Success? ==> forall k :: 0 <= k < |r.value| ==> OnShift(r.value[k], at)
  {
    if |memberIds| == 0 {
      return Success([]);
    }
    if table.Failure? {
      return Failure(table.error);
    }
    var rows := QueryRows(table.value, memberIds, groupSysId);
    var filtered: seq<MemberRow> := [];
    var weekday := DayAbbreviation(at.weekday);
    var i := 0;
    while i < |rows|
      invariant 0 <= i <= |rows|
      invariant filtered == Filter(rows[..i], OnShiftAt(at))
    {
      var row := rows[i];
      FilterPrefixStep(rows, i, OnShiftAt(at));
      i := i + 1;
      var keep := RowOnShift(row, at, weekday);
      if keep {
        filtered := filtered + [row];
      }
    }
    assert rows[..i] == rows;
    FilterAllSatisfy(rows, OnShiftAt(at));
    return Success(filtered);
  }

  /** A row is returned exactly when the query selects it and it is on shift; the result keeps
      the table's order. */
  lemma MemberRowsExactly(ids: set<string>, group: Option<string>, table: seq<MemberRow>, at: Instant,
                          r: MemberRow)
    requires |ids| > 0
    ensures MemberRowsOf(ids, group, Success(table), at).Success?
    ensures var rows := MemberRowsOf(ids, group, Success(table), at).value;
      && IsSubsequence(rows, table)
      && (r in rows <==> r in table && r.memberSysId in ids && group == Some(r.assignmentGroupSysId)
                         && r.active && OnShift(r, at))
  {
    var q := QueryRows(table, ids, group);
    FilterMembership(table, Selects(ids, group), r);
    FilterMembership(q, OnShiftAt(at), r);
    FilterIsSubsequence(table, Selects(ids, group));
    FilterIsSubsequence(q, OnShiftAt(at));
    SubsequenceTransitive(Filter(q, OnShiftAt(at)), q, table);
  }

  /** The weekend shift flag never lets a row in: a row is on shift with the flag set exactly
      when it is on shift with the flag cleared. */
  lemma WeekendFlagAdmitsNothing(r: MemberRow, at: Instant)
    ensures OnShift(r.(weekendShiftFlag := true), at) == OnShift(r.(weekendShiftFlag := false), at)
    ensures OnShift(r, at) ==> Contains(ShiftDays(r), DayAbbreviation(at.weekday))
  {
  }

  // ---------------------------------------------------------------------------------------
  // The shift comparison as written

  /** The outcome of the shift test of one row as the code runs on what the driver returns. */
  datatype ShiftTest = Keep | Drop | RaisesTypeError

  /** The shift test as written: pymysql hands the bounds over as `timedelta` (a TIME column)
      or `str` (a VARCHAR column), never as a time of day, and Python refuses to order either
      against the incident's `time`. So once a row's day matches and both bounds are present,
      the comparison raises TypeError instead of deciding. */
  function ShiftTestAsWritten(r: MemberRow, at: Instant): ShiftTest {
    if !Contains(ShiftDays(r), DayAbbreviation(at.weekday)) then Drop
    else if r.shiftStart.None? || r.shiftEnd.None? then Drop
    else RaisesTypeError
  }

  /** The filter loop as written over the queried rows: None when a row's test raises (the
      exception leaves fetch_member_rows_from_db), otherwise the kept rows. */
  function FilterAsWritten(rows: seq<MemberRow>, at: Instant): Option<seq<MemberRow>> {
    if rows == [] then Some([])
    else
      var t := ShiftTestAsWritten(rows[0], at);
      if t == RaisesTypeError then None
      else
        var rest := FilterAsWritten(rows[1..], at);
        if rest.None? then None else Some((if t == Keep then [rows[0]] else []) + rest.value)
  }

  /** The comparison is reached exactly on the rows whose day matches and whose bounds are
      both present, which are the rows the intended test would go on to examine. */
  lemma ShiftTestAsWrittenRaises(r: MemberRow, at: Instant)
    ensures ShiftTestAsWritten(r, at) != Keep
    ensures ShiftTestAsWritten(r, at) == RaisesTypeError
            <==> Contains(ShiftDays(r), DayAbbreviation(at.weekday)) && r.shiftStart.Some? && r.shiftEnd.Some?
    ensures OnShift(r, at) ==> ShiftTestAsWritten(r, at) == RaisesTypeError
  {
  }

  /** As written, the filter never returns a row: it raises when some row reaches the
      comparison and returns [] otherwise. */
  lemma {:induction false} FilterAsWrittenKeepsNothing(rows: seq<MemberRow>, at: Instant)
    ensures FilterAsWritten(rows, at).None?
            <==> exists k :: 0 <= k < |rows| && ShiftTestAsWritten(rows[k], at) == RaisesTypeError
    ensures FilterAsWritten(rows, at).Some? ==> FilterAsWritten(rows, at).value == []
    decreases |rows|
  {
    if rows != [] {
      FilterAsWrittenKeepsNothing(rows[1..], at);
      if ShiftTestAsWritten(rows[0], at) != RaisesTypeError {
        ShiftTestAsWrittenRaises(rows[0], at);
        forall k | 1 <= k < |rows|
          ensures rows[k] == rows[1..][k - 1]
        {
        }
        if FilterAsWritten(rows[1..], at).None? {
          var k :| 0 <= k < |rows[1..]| && ShiftTestAsWritten(rows[1..][k], at) == RaisesTypeError;
          assert rows[k + 1] == rows[1..][k];
        }
      }
    }
  }

  /** A Monday 09:00-17:00 row at Monday noon: the intended test keeps it, the code as written
      raises on it. */
  lemma ShiftComparisonExample()
    ensures var row := MemberRow("u1", "g1", true, None, None, None, Some("Mon,Tue"), false,
                                 Some(9 * 3600), Some(17 * 3600));
            var at := Instant(0, 12 * 3600);
            && OnShift(row, at)
            && FilterAsWritten([row], at).None?
            && Filter([row], OnShiftAt(at)) == [row]
  {
    var row := MemberRow("u1", "g1", true, None, None, None, Some("Mon,Tue"), false,
                         Some(9 * 3600), Some(17 * 3600));
    var at := Instant(0, 12 * 3600);
    assert DayAbbreviation(at.weekday) == "Mon";
    assert "Mon" <= "Mon,Tue";
    assert OnShift(row, at);
    FilterAsWrittenKeepsNothing([row], at);
  }

  // ---------------------------------------------------------------------------------------
  // Workload (compute_base_workload)

  /** An incident assigned to a member: its priority and severity codes and its age in hours
      at the evaluation instant, None when opened_at cannot be parsed (the source then treats
      the incident as opened now). */
  datatype AssignedIncident = AssignedIncident(priority: Option<string>, severity: Option<string>,
                                               ageHours: Option<real>)

  /** `v or default` for a text field. */
  function TextOr(v: Option<string>, default: string): string {
    if v.Some? && v.value != "" then v.value else default
  }

  /** table.get(key, 1.0) */
  function WeightOf(table: map<string, real>, key: string): real {
    if key in table then table[key] else 1.0
  }

  function PriorityWeight(inc: AssignedIncident): (w: real)
    ensures 0.5 <= w <= 6.0
  {
    WeightOf(PRIORITY_WEIGHT, TextOr(inc.priority, "3"))
  }

  function SeverityMult(inc: AssignedIncident): (m: real)
    ensures 1.0 <= m <= 1.3
  {
    WeightOf(SEVERITY_MULT, TextOr(inc.severity, "3"))
  }

  /** max(0, age): an incident opened in the future, or whose age is unknown, has age 0. */
  function AgeHours(inc: AssignedIncident): (h: real)
    ensures h >= 0.0
    ensures inc.ageHours.Some? && inc.ageHours.value >= 0.0 ==> h == inc.ageHours.value
  {
    if inc.ageHours.Some? && inc.ageHours.value > 0.0 then inc.ageHours.value else 0.0
  }

  /** One incident's share: priority weight times severity multiplier times 1 + age / 24. */
  function Contribution(inc: AssignedIncident): real {
    PriorityWeight(inc) * SeverityMult(inc) * (1.0 + AgeHours(inc) / 24.0)
  }

  /** The sum of the contributions. */
  function BaseWorkload(incs: seq<AssignedIncident>): real {
    if incs == [] then 0.0 else BaseWorkload(incs[..|incs| - 1]) + Contribution(incs[|incs| - 1])
  }

  lemma ContributionAtLeastHalf(inc: AssignedIncident)
    ensures Contribution(inc) >= 0.5
  {
    var p, s, f := PriorityWeight(inc), SeverityMult(inc), 1.0 + AgeHours(inc) / 24.0;
    assert p * s >= 0.5 * s >= 0.5;
    assert p * s * f >= p * s;
  }

  /** Every incident adds at least 0.5, so the workload is zero exactly for no incidents. */
  lemma {:induction false} BaseWorkloadBounds(incs: seq<AssignedIncident>)
    ensures BaseWorkload(incs) >= 0.5 * |incs| as real
    ensures BaseWorkload(incs) == 0.0 <==> incs == []
  {
    if incs != [] {
      BaseWorkloadBounds(incs[..|incs| - 1]);
      ContributionAtLeastHalf(incs[|incs| - 1]);
    }
  }

  /** A day-old incident weighs twice as much as a new one with the same codes. */
  lemma DayOldCountsDouble(p: Option<string>, s: Option<string>)
    ensures Contribution(AssignedIncident(p, s, Some(24.0))) == 2.0 * Contribution(AssignedIncident(p, s, None))
  {
  }

  /** Missing or empty codes fall back to priority 3 and severity 3, which weigh 1.0 each;
      codes outside the tables weigh 1.0 as well. */
  lemma DefaultCodes(age: Option<real>)
    ensures Contribution(AssignedIncident(None, None, age)) == Contribution(AssignedIncident(Some("3"), Some("3"), age))
    ensures Contribution(AssignedIncident(Some(""), Some(""), None)) == 1.0
    ensures Contribution(AssignedIncident(Some("9"), Some("9"), None)) == 1.0
    ensures Contribution(AssignedIncident(Some("1"), Some("1"), None)) == 7.8
  {
  }

  method ComputeBaseWorkload(incs: seq<AssignedIncident>) returns (base: real)
    ensures base == BaseWorkload(incs)
    ensures base >= 0.5 * |incs| as real
    ensures incs == [] ==> base == 0.0
  {
    base := 0.0;
    var i := 0;
    while i < |incs|
      invariant 0 <= i <= |incs|
      invariant base == BaseWorkload(incs[..i])
    {
      BaseWorkloadStep(incs, i);
      var inc := incs[i];
      var ageFactor := 1.0 + AgeHours(inc) / 24.0;
      var pWeight := PriorityWeight(inc);
      var sMult := SeverityMult(inc);
      assert pWeight * sMult * ageFactor == Contribution(inc);
      base := base + pWeight * sMult * ageFactor;
      i := i + 1;
    }
    assert incs[..i] == incs;
    BaseWorkloadBounds(incs);
  }

  /** The running sum over one more incident adds that incident's contribution. */
  lemma BaseWorkloadStep(incs: seq<AssignedIncident>, i: nat)
    requires i < |incs|
    ensures BaseWorkload(incs[..i + 1]) == BaseWorkload(incs[..i]) + Contribution(incs[i])
  {
    assert incs[..i + 1][..i] == incs[..i];
    assert incs[..i + 1][i] == incs[i];
  }

  // ---------------------------------------------------------------------------------------
  // Scoring and selection (select_best_member)

  /** random.uniform(0, 0.01) */
  type Jitter = x: real | 0.0 <= x <= 0.01

  /** ROLE_MULT.get(role or 'L2', 1.0): the lookup is case-sensitive. */
  function RoleMultiplier(role: Option<string>): real {
    WeightOf(ROLE_MULT, TextOr(role, "L2"))
  }

  /** float(weight_modifier or 1.0): a missing or zero modifier is 1.0. */
  function WeightModifier(w: Option<real>): real {
    if w.Some? && w.value != 0.0 then w.value else 1.0
  }

  /** The score before the jitter: workload scaled by role and modifier, plus 0.1 per recent
      assignment. Lower is better. */
  function SteadyScore(base: real, roleMult: real, weightMod: real, recentCount: nat): real {
    base * roleMult * weightMod + 0.1 * recentCount as real
  }

  /** One snapshot entry of the scores list. */
  datatype ScoreEntry = ScoreEntry(
    memberSysId: string,
    memberName: Option<string>,
    baseWorkload: real,
    roleMult: real,
    weightMod: real,
    recentCount: nat,
    finalWeight: real)

  function FinalWeightOf(e: ScoreEntry): real {
    e.finalWeight
  }

  /** The entry of one candidate, given the result of fetching its assigned incidents, the
      result of counting its recent assignments and its jitter; the first failing call wins. */
  function EntryFor(c: MemberRow, assignedIncs: Result<seq<AssignedIncident>, Fault>, recent: Result<nat, Fault>,
                    jitter: Jitter): (r: Result<ScoreEntry, Fault>)
    ensures assignedIncs.Failure? ==> r == Failure(assignedIncs.error)
    ensures assignedIncs.Success? && recent.Failure? ==> r == Failure(recent.error)
    ensures r.Success? ==>
      && r.value.memberSysId == c.memberSysId && r.value.memberName == c.memberName
      && r.value.baseWorkload == BaseWorkload(assignedIncs.value)
      && r.value.roleMult == RoleMultiplier(c.role) && r.value.weightMod == WeightModifier(c.weightModifier)
      && r.value.recentCount == recent.value
      && var steady := SteadyScore(r.value.baseWorkload, r.value.roleMult, r.value.weightMod, r.value.recentCount);
         steady <= r.value.finalWeight <= steady + 0.01
  {
    if assignedIncs.Failure? then Failure(assignedIncs.error)
    else if recent.Failure? then Failure(recent.error)
    else
      var base := BaseWorkload(assignedIncs.value);
      var roleMult := RoleMultiplier(c.role);
      var weightMod := WeightModifier(c.weightModifier);
      Success(ScoreEntry(c.memberSysId, c.memberName, base, roleMult, weightMod, recent.value,
                         SteadyScore(base, roleMult, weightMod, recent.value) + jitter))
  }

  /** The scores list, one entry per candidate in candidate order, or the first failure. The
      i-th candidate draws the i-th jitter. */
  function ScoresOf(cands: seq<MemberRow>, assignedOf: string -> Result<seq<AssignedIncident>, Fault>,
                    recentOf: string -> Result<nat, Fault>, jitterOf: nat -> Jitter): Result<seq<ScoreEntry>, Fault>
  {
    if cands == [] then Success([])
    else
      var n := |cands| - 1;
      var init := ScoresOf(cands[..n], assignedOf, recentOf, jitterOf);
      if init.Failure? then init
      else
        var e := EntryFor(cands[n], assignedOf(cands[n].memberSysId), recentOf(cands[n].memberSysId), jitterOf(n));
        if e.Failure? then Failure(e.error) else Success(init.value + [e.value])
  }

  /** On success there is exactly one entry per candidate, in candidate order. */
  lemma {:induction false} ScoresOneToOne(cands: seq<MemberRow>, assignedOf: string -> Result<seq<AssignedIncident>, Fault>,
                                          recentOf: string -> Result<nat, Fault>, jitterOf: nat -> Jitter)
    requires ScoresOf(cands, assignedOf, recentOf, jitterOf).Success?
    ensures var s := ScoresOf(cands, assignedOf, recentOf, jitterOf).value;
      && |s| == |cands|
      && forall i :: 0 <= i < |s| ==>
           && Success(s[i]) == EntryFor(cands[i], assignedOf(cands[i].memberSysId), recentOf(cands[i].memberSysId), jitterOf(i))
           && s[i].memberSysId == cands[i].memberSysId
  {
    if cands != [] {
      ScoresOneToOne(cands[..|cands| - 1], assignedOf, recentOf, jitterOf);
    }
  }

  /** Scoring one more candidate after a successful prefix appends its entry, or fails with
      that entry's error. */
  lemma ScoresStep(cands: seq<MemberRow>, i: nat, assignedOf: string -> Result<seq<AssignedIncident>, Fault>,
                   recentOf: string -> Result<nat, Fault>, jitterOf: nat -> Jitter)
    requires i < |cands|
    ensures var init := ScoresOf(cands[..i], assignedOf, recentOf, jitterOf);
            var e := EntryFor(cands[i], assignedOf(cands[i].memberSysId), recentOf(cands[i].memberSysId), jitterOf(i));
            init.Success? ==>
              ScoresOf(cands[..i + 1], assignedOf, recentOf, jitterOf)
              == if e.Failure? then Failure(e.error) else Success(init.value + [e.value])
  {
    assert cands[..i + 1][..i] == cands[..i];
    assert cands[..i + 1][i] == cands[i];
  }

  /** A failure on a prefix of the candidates is the failure of the whole list. */
  lemma {:induction false} ScoresFailureSticks(cands: seq<MemberRow>, i: nat,
                                               assignedOf: string -> Result<seq<AssignedIncident>, Fault>,
                                               recentOf: string -> Result<nat, Fault>, jitterOf: nat -> Jitter)
    requires i <= |cands|
    requires ScoresOf(cands[..i], assignedOf, recentOf, jitterOf).Failure?
    ensures ScoresOf(cands, assignedOf, recentOf, jitterOf) == ScoresOf(cands[..i], assignedOf, recentOf, jitterOf)
    decreases |cands| - i
  {
    if i < |cands| {
      assert cands[..i + 1][..i] == cands[..i];
      ScoresFailureSticks(cands, i + 1, assignedOf, recentOf, jitterOf);
    } else {
      assert cands[..i] == cands;
    }
  }

  /** select_best_member: (None, []) without candidates; otherwise the scores sorted ascending
      (stable) and the first one's member. */
  function Selection(cands: seq<MemberRow>, assignedOf: string -> Result<seq<AssignedIncident>, Fault>,
                     recentOf: string -> Result<nat, Fault>, jitterOf: nat -> Jitter)
    : Result<(Option<string>, seq<ScoreEntry>), Fault>
  {
    var scores := ScoresOf(cands, assignedOf, recentOf, jitterOf);
    if scores.Failure? then Failure(scores.error)
    else if scores.value == [] then Success((None, []))
    else
      var sorted := SortAsc(scores.value, FinalWeightOf);
      Success((Some(sorted[0].memberSysId), sorted))
  }

  /** The body of the scoring loop for one candidate. */
  method ScoreCandidate(c: MemberRow, assignedOf: string -> Result<seq<AssignedIncident>, Fault>,
                        recentOf: string -> Result<nat, Fault>, jitter: Jitter)
    returns (r: Result<ScoreEntry, Fault>)
    ensures r == EntryFor(c, assignedOf(c.memberSysId), recentOf(c.memberSysId), jitter)
  {
    var memberId := c.memberSysId;
    var role := TextOr(c.role, "L2");
    var weightMod := WeightModifier(c.weightModifier);
    var assignedIncs := assignedOf(memberId);
    if assignedIncs.Failure? {
      return Failure(assignedIncs.error);
    }
    var base := ComputeBaseWorkload(assignedIncs.value);
    var recent := recentOf(memberId);
    if recent.Failure? {
      return Failure(recent.error);
    }
    var roleMult := WeightOf(ROLE_MULT, role);
    var final := SteadyScore(base, roleMult, weightMod, recent.value) + jitter;
    return Success(ScoreEntry(memberId, c.memberName, base, roleMult, weightMod, recent.value, final));
  }

  method SelectBestMember(cands: seq<MemberRow>, assignedOf: string -> Result<seq<AssignedIncident>, Fault>,
                          recentOf: string -> Result<nat, Fault>, jitterOf: nat -> Jitter)
    returns (r: Result<(Option<string>, seq<ScoreEntry>), Fault>)
    ensures r == Selection(cands, assignedOf, recentOf, jitterOf)
    ensures cands == [] ==> r == Success((None, []))
  {
    var scores: seq<ScoreEntry> := [];
    var i := 0;
    while i < |cands|
      invariant 0 <= i <= |cands|
      invariant ScoresOf(cands[..i], assignedOf, recentOf, jitterOf) == Success(scores)
    {
      ScoresStep(cands, i, assignedOf, recentOf, jitterOf);
      var entry := ScoreCandidate(cands[i], assignedOf, recentOf, jitterOf(i));
      if entry.Failure? {
        ScoresFailureSticks(cands, i + 1, assignedOf, recentOf, jitterOf);
        return Failure(entry.error);
      }
      scores := scores + [entry.value];
      i := i + 1;
    }
    assert cands[..i] == cands;
    if |scores| == 0 {
      return Success((None, []));
    }
    var sorted := SortAsc(scores, FinalWeightOf);
    SortAscCorrect(scores, FinalWeightOf);
    return Success((Some(sorted[0].memberSysId), sorted));
  }

  /** What a successful selection promises: one snapshot entry per candidate, a permutation of
      the scores sorted ascending by final weight, and a winner exactly when there are
      candidates, namely the member of the first entry, which has the lowest final weight and
      is the earliest candidate among those tied with it. The winner's index is returned. */
  lemma SelectionCorrect(cands: seq<MemberRow>, assignedOf: string -> Result<seq<AssignedIncident>, Fault>,
                         recentOf: string -> Result<nat, Fault>, jitterOf: nat -> Jitter)
    returns (winner: nat)
    requires Selection(cands, assignedOf, recentOf, jitterOf).Success?
    ensures var (chosen, snapshot) := Selection(cands, assignedOf, recentOf, jitterOf).value;
      var scores := ScoresOf(cands, assignedOf, recentOf, jitterOf).value;
      && |scores| == |cands| && |snapshot| == |cands| && multiset(snapshot) == multiset(scores)
      && SortedBy(snapshot, FinalWeightOf)
      && (chosen.None? <==> cands == [])
      && (chosen.Some? ==>
            && winner < |cands| && snapshot[0] == scores[winner]
            && chosen.value == snapshot[0].memberSysId == cands[winner].memberSysId
            && (forall j :: 0 <= j < |scores| ==> scores[winner].finalWeight <= scores[j].finalWeight)
            && (forall j :: 0 <= j < winner ==> scores[winner].finalWeight < scores[j].finalWeight))
  {
    ScoresOneToOne(cands, assignedOf, recentOf, jitterOf);
    var scores := ScoresOf(cands, assignedOf, recentOf, jitterOf).value;
    SortAscCorrect(scores, FinalWeightOf);
    winner := 0;
    if scores != [] {
      winner := SortAscHead(scores, FinalWeightOf);
    }
  }

  /** The jitter only decides between members whose steady scores are within 0.01 of each
      other: a steady lead larger than that is kept. */
  lemma JitterKeepsClearLeads(a: MemberRow, b: MemberRow, assignedA: seq<AssignedIncident>, assignedB: seq<AssignedIncident>,
                              recentA: nat, recentB: nat, jitterA: Jitter, jitterB: Jitter)
    requires var ea := EntryFor(a, Success(assignedA), Success(recentA), jitterA).value;
      var eb := EntryFor(b, Success(assignedB), Success(recentB), jitterB).value;
      SteadyScore(ea.baseWorkload, ea.roleMult, ea.weightMod, recentA) + 0.01
        < SteadyScore(eb.baseWorkload, eb.roleMult, eb.weightMod, recentB)
    ensures EntryFor(a, Success(assignedA), Success(recentA), jitterA).value.finalWeight
            < EntryFor(b, Success(assignedB), Success(recentB), jitterB).value.finalWeight
  {
  }

  /** Role defaults: a missing or empty role is L2; the lookup is case-sensitive, so "l1" is an
      unknown role worth 1.0; the senior roles scale the workload down. */
  lemma RoleMultipliers()
    ensures RoleMultiplier(None) == RoleMultiplier(Some("")) == RoleMultiplier(Some("L2")) == 1.0
    ensures RoleMultiplier(Some("l1")) == 1.0 && RoleMultiplier(Some("L1")) == 1.2
    ensures RoleMultiplier(Some("SME")) < RoleMultiplier(Some("L3")) < RoleMultiplier(Some("L2")) < RoleMultiplier(Some("L1"))
    ensures WeightModifier(None) == WeightModifier(Some(0.0)) == 1.0
  {
  }

  // ---------------------------------------------------------------------------------------
  // Candidate limit (member_rows[:MAX_CANDIDATES])

  /** Python's s[:n]: the first n elements, or all but the last -n for a negative n. */
  function PyPrefix<T>(s: seq<T>, n: int): (r: seq<T>)
    ensures r <= s
    ensures 0 <= n ==> |r| == Min(n, |s|)
    ensures n < 0 ==> |r| == Max(0, |s| + n)
  {
    if n >= |s| then s
    else if n >= 0 then s[..n]
    else if |s| + n <= 0 then []
    else s[..|s| + n]
  }

  // ---------------------------------------------------------------------------------------
  // The history insert (record_assignment_history)

  /** A value written by the INSERT. */
  datatype SqlValue = SqlText(text: Option<string>) | SnapshotJson(scores: seq<ScoreEntry>, chosen: string)
                    | Flag(flag: bool) | CurrentTime

  /** An item of a VALUES list: a %s placeholder or NOW(). */
  datatype Slot = Placeholder | Now

  const HISTORY_COLUMNS: seq<string> := ["incident_sys_id", "incident_number", "assigned_to_member_sys_id",
    "assignment_timestamp", "algorithm_snapshot", "success", "created_by"]
  const ASSIGNED_TO_COLUMN: nat := 2
  const TIMESTAMP_COLUMN: nat := 3

  /** The VALUES list of the statement as written: NOW() is the third item. */
  const VALUES_AS_WRITTEN: seq<Slot> := [Placeholder, Placeholder, Now, Placeholder, Placeholder, Placeholder, Placeholder]
  /** NOW() in the position of assignment_timestamp. */
  const VALUES_INTENDED: seq<Slot> := [Placeholder, Placeholder, Placeholder, Now, Placeholder, Placeholder, Placeholder]

  /** The parameters passed with the statement, in order. */
  function HistoryParams(sysId: Option<string>, number: Option<string>, member: string,
                         scores: seq<ScoreEntry>): seq<SqlValue>
  {
    [SqlText(sysId), SqlText(number), SqlText(Some(member)), SnapshotJson(scores, member), Flag(true), SqlText(Some("lambda_processor"))]
  }

  /** The value stored for each slot: a placeholder takes the next parameter, NOW() the current
      time; None when the counts of placeholders and parameters differ. */
  function Bind(slots: seq<Slot>, params: seq<SqlValue>): (r: Option<seq<SqlValue>>)
    ensures r.Some? ==> |r.value| == |slots|
  {
    if slots == [] then (if params == [] then Some([]) else None)
    else if slots[0] == Now then
      var rest := Bind(slots[1..], params);
      if rest.None? then None else Some([CurrentTime] + rest.value)
    else if params == [] then None
    else
      var rest := Bind(slots[1..], params[1..]);
      if rest.None? then None else Some([params[0]] + rest.value)
  }

  /** A placeholder binds the next parameter. */
  lemma BindPlaceholder(p: SqlValue, slots: seq<Slot>, params: seq<SqlValue>, rest: seq<SqlValue>)
    requires Bind(slots, params) == Some(rest)
    ensures Bind([Placeholder] + slots, [p] + params) == Some([p] + rest)
  {
    assert ([Placeholder] + slots)[1..] == slots;
    assert ([p] + params)[1..] == params;
  }

  /** NOW() binds the current time and consumes no parameter. */
  lemma BindNow(slots: seq<Slot>, params: seq<SqlValue>, rest: seq<SqlValue>)
    requires Bind(slots, params) == Some(rest)
    ensures Bind([Now] + slots, params) == Some([CurrentTime] + rest)
  {
    assert ([Now] + slots)[1..] == slots;
  }

  /** n placeholders in a row. */
  function Placeholders(n: nat): (slots: seq<Slot>)
    ensures |slots| == n && forall i :: 0 <= i < n ==> slots[i] == Placeholder
  {
    seq(n, _ => Placeholder)
  }

  /** A list of placeholders binds the parameters one to one. */
  lemma {:induction false} BindPlaceholders(params: seq<SqlValue>)
    ensures Bind(Placeholders(|params|), params) == Some(params)
  {
    if params != [] {
      var n := |params| - 1;
      BindPlaceholders(params[1..]);
      assert Placeholders(|params|) == [Placeholder] + Placeholders(n);
      BindPlaceholder(params[0], Placeholders(n), params[1..], params[1..]);
      assert [params[0]] + params[1..] == params;
    }
  }

  lemma SlotsCons(k: nat, m: nat)
    requires k > 0
    ensures Placeholders(k) + [Now] + Placeholders(m) == [Placeholder] + (Placeholders(k - 1) + [Now] + Placeholders(m))
  {
    assert Placeholders(k) == [Placeholder] + Placeholders(k - 1);
  }

  lemma ShiftedCons(params: seq<SqlValue>, k: nat)
    requires 0 < k <= |params|
    ensures [params[0]] + (params[1..][..k - 1] + [CurrentTime] + params[1..][k - 1..])
            == params[..k] + [CurrentTime] + params[k..]
  {
    assert [params[0]] + params[1..][..k - 1] == params[..k];
    assert params[1..][k - 1..] == params[k..];
  }

  lemma BindNowFirst(params: seq<SqlValue>)
    ensures Bind([Now] + Placeholders(|params|), params) == Some([CurrentTime] + params)
  {
    BindPlaceholders(params);
    BindNow(Placeholders(|params|), params, params);
  }

  /** NOW() after k placeholders binds the current time to column k and shifts the later
      parameters one column to the right. */
  lemma {:induction false} BindNowAt(k: nat, m: nat, params: seq<SqlValue>)
    requires |params| == k + m
    ensures Bind(Placeholders(k) + [Now] + Placeholders(m), params) == Some(params[..k] + [CurrentTime] + params[k..])
  {
    if k == 0 {
      BindNowFirst(params);
      assert Placeholders(0) + [Now] == [Now];
      assert params[..0] + [CurrentTime] == [CurrentTime] && params[0..] == params;
    } else {
      var tail := params[1..];
      BindNowAt(k - 1, m, tail);
      SlotsCons(k, m);
      BindPlaceholder(params[0], Placeholders(k - 1) + [Now] + Placeholders(m), tail,
                      tail[..k - 1] + [CurrentTime] + tail[k - 1..]);
      ShiftedCons(params, k);
    }
  }

  /** The statement as written binds the third parameter, the member, to the fourth column. */
  lemma BindAsWritten(a: SqlValue, b: SqlValue, c: SqlValue, d: SqlValue, e: SqlValue, f: SqlValue)
    ensures Bind(VALUES_AS_WRITTEN, [a, b, c, d, e, f]) == Some([a, b, CurrentTime, c, d, e, f])
  {
    var params := [a, b, c, d, e, f];
    BindNowAt(2, 4, params);
    assert VALUES_AS_WRITTEN == Placeholders(2) + [Now] + Placeholders(4);
    assert params[..2] + [CurrentTime] + params[2..] == [a, b, CurrentTime, c, d, e, f];
  }

  /** With NOW() fourth, the i-th parameter goes to the i-th column and NOW() to the fourth. */
  lemma BindIntended(a: SqlValue, b: SqlValue, c: SqlValue, d: SqlValue, e: SqlValue, f: SqlValue)
    ensures Bind(VALUES_INTENDED, [a, b, c, d, e, f]) == Some([a, b, c, CurrentTime, d, e, f])
  {
    var params := [a, b, c, d, e, f];
    BindNowAt(3, 3, params);
    assert VALUES_INTENDED == Placeholders(3) + [Now] + Placeholders(3);
    assert params[..3] + [CurrentTime] + params[3..] == [a, b, c, CurrentTime, d, e, f];
  }

  /** The row as the statement as written binds it: the member id is bound to the
      assignment_timestamp column and the current time to assigned_to_member_sys_id. Whether
      MySQL then rejects the insert (strict sql_mode) or stores a zero date is not modelled. */
  function HistoryRowAsWritten(sysId: Option<string>, number: Option<string>, member: string,
                               scores: seq<ScoreEntry>): (row: seq<SqlValue>)
    ensures |row| == |HISTORY_COLUMNS|
    ensures HISTORY_COLUMNS[ASSIGNED_TO_COLUMN] == "assigned_to_member_sys_id" && row[ASSIGNED_TO_COLUMN] == CurrentTime
    ensures HISTORY_COLUMNS[TIMESTAMP_COLUMN] == "assignment_timestamp" && row[TIMESTAMP_COLUMN] == SqlText(Some(member))
  {
    var p := HistoryParams(sysId, number, member, scores);
    BindAsWritten(p[0], p[1], p[2], p[3], p[4], p[5]);
    assert p == [p[0], p[1], p[2], p[3], p[4], p[5]];
    Bind(VALUES_AS_WRITTEN, p).value
  }

  /** The recent-assignment count matches rows on assigned_to_member_sys_id; the rows the
      statement as written binds never match any member. */
  lemma AsWrittenHistoryIsNeverCounted(sysId: Option<string>, number: Option<string>, member: string,
                                       scores: seq<ScoreEntry>, anyone: string)
    ensures HistoryRowAsWritten(sysId, number, member, scores)[ASSIGNED_TO_COLUMN] != SqlText(Some(anyone))
  {
  }

  /** The stored row with NOW() in its intended position: every column receives its own
      value. */
  function HistoryRow(sysId: Option<string>, number: Option<string>, member: string,
                      scores: seq<ScoreEntry>): (row: seq<SqlValue>)
    ensures row == [SqlText(sysId), SqlText(number), SqlText(Some(member)), CurrentTime, SnapshotJson(scores, member),
                    Flag(true), SqlText(Some("lambda_processor"))]
    ensures |row| == |HISTORY_COLUMNS| && row[ASSIGNED_TO_COLUMN] == SqlText(Some(member))
    ensures HISTORY_COLUMNS[TIMESTAMP_COLUMN] == "assignment_timestamp" && row[TIMESTAMP_COLUMN] == CurrentTime
  {
    var p := HistoryParams(sysId, number, member, scores);
    BindIntended(p[0], p[1], p[2], p[3], p[4], p[5]);
    assert p == [p[0], p[1], p[2], p[3], p[4], p[5]];
    Bind(VALUES_INTENDED, p).value
  }

  // ---------------------------------------------------------------------------------------
  // One queue record (the body of the lambda_handler loop)

  /** What confirm_incident_unassigned shows: no incident (an empty result), an incident with
      a falsy assigned_to, or one assigned to somebody. */
  datatype Holder = NotFound | Unassigned | AssignedTo(who: string)

  /** The calls with an effect on, or a read of, the incident's assignment, in order. */
  datatype Call = PreCheck | PostCheck | Assign(member: string) | RecordHistory(member: string, row: seq<SqlValue>)

  datatype RecordOutcome =
    | SkippedNotFound
    | SkippedAlreadyAssigned
    | SkippedNoGroupMembers
    | SkippedNoMemberRows
    | SkippedNoCandidate
    | SkippedAssignedDuringProcessing
    | Assigned(member: string, snapshot: seq<ScoreEntry>)
    | Failed(fault: Fault)

  /** One parsed message body with the results of every call the handler makes for it. */
  datatype Delivery = Delivery(
    incidentSysId: Option<string>,
    incidentNumber: Option<string>,
    groupSysId: Option<string>,
    openedAt: Option<string>,
    openedInstant: Option<Instant>,
    utcNow: Instant,
    preCheck: Result<Holder, Fault>,
    groupRows: Result<seq<UserField>, Fault>,
    memberTable: Result<seq<MemberRow>, Fault>,
    assignedOf: string -> Result<seq<AssignedIncident>, Fault>,
    recentOf: string -> Result<nat, Fault>,
    jitterOf: nat -> Jitter,
    postCheck: Result<Holder, Fault>,
    assignError: Option<Fault>,
    historyError: Option<Fault>)

  /** The instant the shift filter uses: opened_at when it is truthy (an error when it does not
      parse), the current UTC time otherwise. */
  function IncidentInstant(d: Delivery): Result<Instant, Fault> {
    if d.openedAt.Some? && d.openedAt.value != "" then
      (if d.openedInstant.Some? then Success(d.openedInstant.value) else Failure(BadTimestamp))
    else Success(d.utcNow)
  }

  /** From the post-check on: skip when somebody holds the incident, otherwise assign and then
      record the history. An empty post-check result does not skip. */
  function Finish(d: Delivery, member: string, snapshot: seq<ScoreEntry>): (RecordOutcome, seq<Call>) {
    match d.postCheck
    case Failure(f) => (Failed(f), [PostCheck])
    case Success(AssignedTo(_)) => (SkippedAssignedDuringProcessing, [PostCheck])
    case Success(_) =>
      if d.assignError.Some? then (Failed(d.assignError.value), [PostCheck, Assign(member)])
      else
        var row := HistoryRow(d.incidentSysId, d.incidentNumber, member, snapshot);
        var calls := [PostCheck, Assign(member), RecordHistory(member, row)];
        if d.historyError.Some? then (Failed(d.historyError.value), calls)
        else (Assigned(member, snapshot), calls)
  }

  /** From the group lookup to the choice of a member. */
  function AfterPreCheck(d: Delivery, maxCandidates: int): (RecordOutcome, seq<Call>) {
    if d.groupRows.Failure? then (Failed(d.groupRows.error), [])
    else
      var ids := GroupIds(d.groupRows.value);
      if |ids| == 0 then (SkippedNoGroupMembers, [])
      else
        var at := IncidentInstant(d);
        if at.Failure? then (Failed(at.error), [])
        else
          var rows := MemberRowsOf(ids, d.groupSysId, d.memberTable, at.value);
          if rows.Failure? then (Failed(rows.error), [])
          else if rows.value == [] then (SkippedNoMemberRows, [])
          else
            var sel := Selection(PyPrefix(rows.value, maxCandidates), d.assignedOf, d.recentOf, d.jitterOf);
            if sel.Failure? then (Failed(sel.error), [])
            else if sel.value.0.None? || sel.value.0.value == "" then (SkippedNoCandidate, [])
            else Finish(d, sel.value.0.value, sel.value.1)
  }

  /** The outcome of one record and the calls it makes. */
  function Run(d: Delivery, maxCandidates: int): (RecordOutcome, seq<Call>) {
    match d.preCheck
    case Failure(f) => (Failed(f), [PreCheck])
    case Success(NotFound) => (SkippedNotFound, [PreCheck])
    case Success(AssignedTo(_)) => (SkippedAlreadyAssigned, [PreCheck])
    case Success(Unassigned) =>
      var rest := AfterPreCheck(d, maxCandidates);
      (rest.0, [PreCheck] + rest.1)
  }

  method HandleRecord(d: Delivery, maxCandidates: int) returns (outcome: RecordOutcome, calls: seq<Call>)
    ensures (outcome, calls) == Run(d, maxCandidates)
  {
    calls := [PreCheck];
    if d.preCheck.Failure? {
      return Failed(d.preCheck.error), calls;
    }
    var inc := d.preCheck.value;
    if inc == NotFound {
      return SkippedNotFound, calls;
    }
    if inc.AssignedTo? {
      return SkippedAlreadyAssigned, calls;
    }
    var rest;
    outcome, rest := ChooseAndAssign(d, maxCandidates);
    calls := calls + rest;
  }

  /** The steps after a clear pre-check. */
  method ChooseAndAssign(d: Delivery, maxCandidates: int) returns (outcome: RecordOutcome, calls: seq<Call>)
    ensures (outcome, calls) == AfterPreCheck(d, maxCandidates)
  {
    calls := [];
    if d.groupRows.Failure? {
      return Failed(d.groupRows.error), calls;
    }
    var groupMembers := GroupMemberIds(d.groupRows.value);
    if |groupMembers| == 0 {
      return SkippedNoGroupMembers, calls;
    }
    var incidentAt := IncidentInstant(d);
    if incidentAt.Failure? {
      return Failed(incidentAt.error), calls;
    }
    var memberRows := FetchMemberRows(groupMembers, d.groupSysId, d.memberTable, incidentAt.value);
    if memberRows.Failure? {
      return Failed(memberRows.error), calls;
    }
    if |memberRows.value| == 0 {
      return SkippedNoMemberRows, calls;
    }
    var candidates := PyPrefix(memberRows.value, maxCandidates);
    var selection := SelectBestMember(candidates, d.assignedOf, d.recentOf, d.jitterOf);
    if selection.Failure? {
      return Failed(selection.error), calls;
    }
    var (selected, snapshot) := selection.value;
    if selected.None? || selected.value == "" {
      return SkippedNoCandidate, calls;
    }
    outcome, calls := ConfirmAndAssign(d, selected.value, snapshot);
  }

  /** The post-check, the assign call and the history insert for the chosen member. */
  method ConfirmAndAssign(d: Delivery, member: string, snapshot: seq<ScoreEntry>)
    returns (outcome: RecordOutcome, calls: seq<Call>)
    ensures (outcome, calls) == Finish(d, member, snapshot)
  {
    calls := [PostCheck];
    if d.postCheck.Failure? {
      return Failed(d.postCheck.error), calls;
    }
    if d.postCheck.value.AssignedTo? {
      return SkippedAssignedDuringProcessing, calls;
    }
    calls := [PostCheck, Assign(member)];
    if d.assignError.Some? {
      return Failed(d.assignError.value), calls;
    }
    var row := HistoryRow(d.incidentSysId, d.incidentNumber, member, snapshot);
    calls := [PostCheck, Assign(member), RecordHistory(member, row)];
    if d.historyError.Some? {
      return Failed(d.historyError.value), calls;
    }
    return Assigned(member, snapshot), calls;
  }

  /** A record that gets past the choice of a member goes on to the post-check with the winner
      of the selection over the first maxCandidates on-shift rows of its group. */
  lemma ChosenMember(d: Delivery, maxCandidates: int) returns (member: string, snapshot: seq<ScoreEntry>)
    requires AfterPreCheck(d, maxCandidates).1 != []
    ensures d.groupRows.Success? && |GroupIds(d.groupRows.value)| > 0 && IncidentInstant(d).Success?
    ensures var rows := MemberRowsOf(GroupIds(d.groupRows.value), d.groupSysId, d.memberTable, IncidentInstant(d).value);
      && rows.Success? && rows.value != []
      && Selection(PyPrefix(rows.value, maxCandidates), d.assignedOf, d.recentOf, d.jitterOf) == Success((Some(member), snapshot))
    ensures member != "" && AfterPreCheck(d, maxCandidates) == Finish(d, member, snapshot)
  {
    var rows := MemberRowsOf(GroupIds(d.groupRows.value), d.groupSysId, d.memberTable, IncidentInstant(d).value);
    var sel := Selection(PyPrefix(rows.value, maxCandidates), d.assignedOf, d.recentOf, d.jitterOf);
    member, snapshot := sel.value.0.value, sel.value.1;
  }

  /** The calls from the post-check on: a prefix of post-check, assign, history insert. */
  lemma FinishOrder(d: Delivery, member: string, snapshot: seq<ScoreEntry>)
    ensures var calls := Finish(d, member, snapshot).1;
      && 1 <= |calls|
      && calls <= [PostCheck, Assign(member), RecordHistory(member, HistoryRow(d.incidentSysId, d.incidentNumber, member, snapshot))]
      && (|calls| >= 2 ==> d.postCheck.Success? && !d.postCheck.value.AssignedTo?)
      && (|calls| == 3 ==> d.assignError.None?)
  {
  }

  /** Every record's calls follow one order: the pre-check, then the post-check, then the
      assign call, then the history insert, each only after the one before it succeeded or
      came back clear, for a single chosen member. */
  lemma CallOrder(d: Delivery, maxCandidates: int) returns (member: string, row: seq<SqlValue>)
    ensures var calls := Run(d, maxCandidates).1;
      && 1 <= |calls|
      && calls <= [PreCheck, PostCheck, Assign(member), RecordHistory(member, row)]
      && (|calls| >= 2 ==> d.preCheck == Success(Unassigned))
      && (|calls| >= 3 ==> d.postCheck.Success? && !d.postCheck.value.AssignedTo?)
      && (|calls| == 4 ==> d.assignError.None?)
  {
    member, row := "", [];
    if d.preCheck == Success(Unassigned) && AfterPreCheck(d, maxCandidates).1 != [] {
      var snapshot;
      member, snapshot := ChosenMember(d, maxCandidates);
      row := HistoryRow(d.incidentSysId, d.incidentNumber, member, snapshot);
      FinishOrder(d, member, snapshot);
    }
  }

  /** An incident that the pre-check does not find, or finds assigned, is skipped with the
      pre-check as its only call. */
  lemma PreCheckSkips(d: Delivery, maxCandidates: int)
    requires d.preCheck == Success(NotFound) || (d.preCheck.Success? && d.preCheck.value.AssignedTo?)
    ensures Run(d, maxCandidates).1 == [PreCheck]
    ensures Run(d, maxCandidates).0 == (if d.preCheck.value == NotFound then SkippedNotFound else SkippedAlreadyAssigned)
  {
  }

  /** An incident the post-check finds assigned is never assigned again. */
  lemma PostCheckSkips(d: Delivery, maxCandidates: int)
    requires d.postCheck.Success? && d.postCheck.value.AssignedTo?
    ensures forall c :: c in Run(d, maxCandidates).1 ==> !c.Assign? && !c.RecordHistory?
    ensures Run(d, maxCandidates).0 != Assigned(d.postCheck.value.who, [])
  {
  }

  /** A redelivered message for an incident the first delivery assigned is skipped at the
      pre-check, whatever the other calls would return. */
  lemma RedeliveryIsSkipped(d: Delivery, again: Delivery, maxCandidates: int)
    requires Run(d, maxCandidates).0.Assigned?
    requires again.preCheck == Success(AssignedTo(Run(d, maxCandidates).0.member))
    ensures Run(again, maxCandidates) == (SkippedAlreadyAssigned, [PreCheck])
  {
  }

  /** The member of any assign call is the member chosen by the selection. */
  lemma AssignedIsChosen(d: Delivery, maxCandidates: int, member: string) returns (snapshot: seq<ScoreEntry>)
    requires Assign(member) in Run(d, maxCandidates).1
    ensures d.preCheck == Success(Unassigned) && AfterPreCheck(d, maxCandidates).1 != []
    ensures d.groupRows.Success? && IncidentInstant(d).Success?
    ensures var rows := MemberRowsOf(GroupIds(d.groupRows.value), d.groupSysId, d.memberTable, IncidentInstant(d).value);
      && rows.Success? && rows.value != []
      && Selection(PyPrefix(rows.value, maxCandidates), d.assignedOf, d.recentOf, d.jitterOf) == Success((Some(member), snapshot))
    ensures member != ""
  {
    assert d.preCheck == Success(Unassigned);
    assert Run(d, maxCandidates).1 == [PreCheck] + AfterPreCheck(d, maxCandidates).1;
    var chosen;
    chosen, snapshot := ChosenMember(d, maxCandidates);
    FinishOrder(d, chosen, snapshot);
    var calls := Finish(d, chosen, snapshot).1;
    assert Assign(member) in calls;
    assert member == chosen;
  }

  /** The member handed to the assign call is a non-empty group member id with an active row of
      the incident's group that is on shift at the incident's instant. The row is returned. */
  lemma AssignedMemberQualifies(d: Delivery, maxCandidates: int, member: string) returns (row: MemberRow)
    requires Assign(member) in Run(d, maxCandidates).1
    ensures d.groupRows.Success? && d.memberTable.Success? && IncidentInstant(d).Success?
    ensures member != "" && IsGroupMember(d.groupRows.value, member)
    ensures row in d.memberTable.value && row.memberSysId == member && row.active
    ensures d.groupSysId == Some(row.assignmentGroupSysId)
    ensures OnShift(row, IncidentInstant(d).value)
  {
    var snapshot := AssignedIsChosen(d, maxCandidates, member);
    var ids := GroupIds(d.groupRows.value);
    var at := IncidentInstant(d).value;
    var rows := MemberRowsOf(ids, d.groupSysId, d.memberTable, at).value;
    var cands := PyPrefix(rows, maxCandidates);
    var winner := SelectionCorrect(cands, d.assignedOf, d.recentOf, d.jitterOf);
    row := cands[winner];
    assert row in rows;
    MemberRowsExactly(ids, d.groupSysId, d.memberTable.value, at, row);
    GroupIdsMembers(d.groupRows.value, member);
  }

  /** The history insert follows a successful assign call for the same member, and its
      (corrected) row carries that member in assigned_to_member_sys_id. */
  lemma HistoryAfterAssign(d: Delivery, maxCandidates: int, member: string, row: seq<SqlValue>)
    requires RecordHistory(member, row) in Run(d, maxCandidates).1
    ensures Run(d, maxCandidates).1 == [PreCheck, PostCheck, Assign(member), RecordHistory(member, row)]
    ensures d.assignError.None? && |row| == |HISTORY_COLUMNS|
    ensures row[ASSIGNED_TO_COLUMN] == SqlText(Some(member)) && row[4].SnapshotJson?
    ensures Run(d, maxCandidates).0 == Assigned(member, row[4].scores) || Run(d, maxCandidates).0 == Failed(d.historyError.value)
  {
    assert d.preCheck == Success(Unassigned);
    var rest := AfterPreCheck(d, maxCandidates);
    assert Run(d, maxCandidates) == (rest.0, [PreCheck] + rest.1);
    assert RecordHistory(member, row) in rest.1;
    var ids := GroupIds(d.groupRows.value);
    var at := IncidentInstant(d).value;
    var rows := MemberRowsOf(ids, d.groupSysId, d.memberTable, at).value;
    var sel := Selection(PyPrefix(rows, maxCandidates), d.assignedOf, d.recentOf, d.jitterOf).value;
    assert rest == Finish(d, sel.0.value, sel.1);
    FinishHistory(d, sel.0.value, sel.1, member, row);
  }

  /** The history insert of the post-check stage follows its assign call for the same member
      and carries the ranking snapshot. */
  lemma FinishHistory(d: Delivery, chosen: string, snapshot: seq<ScoreEntry>, member: string, row: seq<SqlValue>)
    requires RecordHistory(member, row) in Finish(d, chosen, snapshot).1
    ensures member == chosen && Finish(d, chosen, snapshot).1 == [PostCheck, Assign(member), RecordHistory(member, row)]
    ensures d.assignError.None? && row == HistoryRow(d.incidentSysId, d.incidentNumber, member, snapshot)
    ensures row[ASSIGNED_TO_COLUMN] == SqlText(Some(member)) && row[4].scores == snapshot
    ensures Finish(d, chosen, snapshot).0 == Assigned(member, snapshot)
         || Finish(d, chosen, snapshot).0 == Failed(d.historyError.value)
  {
    var r := HistoryRow(d.incidentSysId, d.incidentNumber, chosen, snapshot);
    assert Finish(d, chosen, snapshot).1 == [PostCheck, Assign(chosen), RecordHistory(chosen, r)];
  }

  /** A rejected history insert (for instance the as-written row under a strict sql_mode)
      fails the record after the assign call has been made. */
  lemma HistoryRejectedAfterAssign(d: Delivery, chosen: string, snapshot: seq<ScoreEntry>)
    requires d.postCheck.Success? && !d.postCheck.value.AssignedTo?
    requires d.assignError.None? && d.historyError.Some?
    ensures Finish(d, chosen, snapshot).0 == Failed(d.historyError.value)
    ensures Finish(d, chosen, snapshot).1[..2] == [PostCheck, Assign(chosen)]
  {
  }

  /** With MAX_CANDIDATES = 0 no record is ever assigned. */
  lemma NoCandidatesNoAssign(d: Delivery)
    ensures forall c :: c in Run(d, 0).1 ==> !c.Assign?
    ensures !Run(d, 0).0.Assigned?
  {
  }

  // ---------------------------------------------------------------------------------------
  // The batch (lambda_handler)

  /** The event's records: a body that json.loads rejects, or that is not an object, is None; it
      raises outside the per-record handler and ends the invocation. */
  method LambdaHandler(records: seq<Option<Delivery>>, maxCandidates: int)
    returns (outcomes: seq<RecordOutcome>, calls: seq<seq<Call>>, aborted: bool)
    ensures |outcomes| == |calls| <= |records|
    ensures forall i :: 0 <= i < |outcomes| ==>
      records[i].Some? && (outcomes[i], calls[i]) == Run(records[i].value, maxCandidates)
    ensures aborted <==> |outcomes| < |records|
    ensures aborted ==> records[|outcomes|].None?
  {
    outcomes, calls := [], [];
    var i := 0;
    while i < |records|
      invariant 0 <= i <= |records|
      invariant |outcomes| == |calls| == i
      invariant forall j :: 0 <= j < i ==> records[j].Some? && (outcomes[j], calls[j]) == Run(records[j].value, maxCandidates)
    {
      if records[i].None? {
        return outcomes, calls, true;
      }
      var outcome, recordCalls := HandleRecord(records[i].value, maxCandidates);
      outcomes, calls := outcomes + [outcome], calls + [recordCalls];
      i := i + 1;
    }
    aborted := false;
  }
}
