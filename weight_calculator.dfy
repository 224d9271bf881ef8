/** The multi-factor scorer and ranker (weight_calculator.py): workload, role and availability
    scores, their weighted sum, a stable descending ranking, and the explanation of the winner. */
module WeightCalculator {
  import opened Wrappers
  import opened Models
  import opened Errors
  import opened Sequences
  import Sorting
  import Config

  /** The tuning a calculator copies from the configuration when it is created; it never
      changes afterwards. */
  datatype Calculator = Calculator(
    workloadWeight: real,
    roleWeight: real,
    availabilityWeight: real,
    priorityWeights: map<string, real>,
    roleMultipliers: map<string, real>)

  /** WeightCalculator.__init__: the factor weights and the two tables from the configuration. */
  function NewCalculator(settings: Config.Settings): (c: Calculator)
    ensures c.priorityWeights == Config.PRIORITY_WEIGHTS && c.roleMultipliers == Config.ROLE_MULTIPLIERS
    ensures c.workloadWeight == settings.workloadWeight && c.roleWeight == settings.roleWeight
            && c.availabilityWeight == settings.availabilityWeight
  {
    Calculator(settings.workloadWeight, settings.roleWeight, settings.availabilityWeight,
               Config.PRIORITY_WEIGHTS, Config.ROLE_MULTIPLIERS)
  }

  /** The calculator built from the default settings. */
  const DEFAULT: Calculator := Calculator(
    Config.DEFAULT_WORKLOAD_WEIGHT, Config.DEFAULT_ROLE_WEIGHT, Config.DEFAULT_AVAILABILITY_WEIGHT,
    Config.PRIORITY_WEIGHTS, Config.ROLE_MULTIPLIERS)

  function Min(a: real, b: real): real { if a <= b then a else b }
  function Max(a: real, b: real): real { if a >= b then a else b }

  // ---------------------------------------------------------------------------------------
  // Workload score

  /** An incident currently assigned to a member; only its priority enters the score. */
  datatype OpenIncident = OpenIncident(number: JsonField, priority: JsonField)

  /** incident.get('priority', '4') looked up with a default weight of 1.0: a missing key
      means priority "4", a null priority matches no entry. */
  function PriorityWeight(cw: Calculator, inc: OpenIncident): real {
    var p := if inc.priority.Absent? then Some("4") else inc.priority.Get();
    if p.Some? && p.value in cw.priorityWeights then cw.priorityWeights[p.value] else 1.0
  }

  /** The sum of the priority weights of the incidents. */
  function WeightedCount(cw: Calculator, incidents: seq<OpenIncident>): real {
    if incidents == [] then 0.0
    else WeightedCount(cw, incidents[..|incidents| - 1]) + PriorityWeight(cw, incidents[|incidents| - 1])
  }

  /** 1 / (1 + 0.5 * weighted); None where the division raises ZeroDivisionError. */
  function LoadScore(weighted: real): Option<real> {
    if 1.0 + weighted * 0.5 == 0.0 then None else Some(1.0 / (1.0 + weighted * 0.5))
  }

  function WorkloadScore(cw: Calculator, incidents: seq<OpenIncident>): Option<real> {
    if |incidents| == 0 then Some(1.0) else LoadScore(WeightedCount(cw, incidents))
  }

  predicate NonNegativeWeights(cw: Calculator) {
    forall p :: p in cw.priorityWeights ==> cw.priorityWeights[p] >= 0.0
  }

  method CalculateWorkloadScore(cw: Calculator, incidents: seq<OpenIncident>) returns (score: Option<real>)
    ensures score == WorkloadScore(cw, incidents)
    ensures |incidents| == 0 ==> score == Some(1.0)
    ensures NonNegativeWeights(cw) ==> score.Some? && 0.0 < score.value <= 1.0
  {
    if |incidents| == 0 {
      return Some(1.0);
    }
    var weighted := 0.0;
    var i := 0;
    while i < |incidents|
      invariant 0 <= i <= |incidents|
      invariant weighted == WeightedCount(cw, incidents[..i])
    {
      assert incidents[..i + 1][..i] == incidents[..i];
      weighted := weighted + PriorityWeight(cw, incidents[i]);
      i := i + 1;
    }
    assert incidents[..i] == incidents;
    score := LoadScore(weighted);
    if NonNegativeWeights(cw) {
      WorkloadScoreRange(cw, incidents);
    }
  }

  lemma {:induction false} WeightedCountNonNegative(cw: Calculator, incidents: seq<OpenIncident>)
    requires NonNegativeWeights(cw)
    ensures WeightedCount(cw, incidents) >= 0.0
  {
    if incidents != [] {
      WeightedCountNonNegative(cw, incidents[..|incidents| - 1]);
    }
  }

  /** With non-negative weights the score is defined and lies in (0, 1]. */
  lemma WorkloadScoreRange(cw: Calculator, incidents: seq<OpenIncident>)
    requires NonNegativeWeights(cw)
    ensures WorkloadScore(cw, incidents).Some?
    ensures 0.0 < WorkloadScore(cw, incidents).value <= 1.0
  {
    WeightedCountNonNegative(cw, incidents);
  }

  /** The score strictly decreases as the weighted sum grows. */
  lemma LoadScoreStrictlyDecreasing(w1: real, w2: real)
    requires 0.0 <= w1 < w2
    ensures LoadScore(w1).Some? && LoadScore(w2).Some?
    ensures LoadScore(w1).value > LoadScore(w2).value
  {
    var d1, d2 := 1.0 + w1 * 0.5, 1.0 + w2 * 0.5;
    assert 0.0 < d1 < d2;
    assert 1.0 / d1 > 1.0 / d2 by {
      assert (1.0 / d1) * d1 == 1.0 && (1.0 / d2) * d2 == 1.0;
      assert (1.0 / d2) * d1 < (1.0 / d2) * d2;
    }
  }

  /** One more open incident of positive weight strictly lowers the score. */
  lemma AnotherIncidentLowersScore(cw: Calculator, incidents: seq<OpenIncident>, extra: OpenIncident)
    requires NonNegativeWeights(cw) && PriorityWeight(cw, extra) > 0.0
    ensures WorkloadScore(cw, incidents).Some? && WorkloadScore(cw, incidents + [extra]).Some?
    ensures WorkloadScore(cw, incidents + [extra]).value < WorkloadScore(cw, incidents).value
  {
    var more := incidents + [extra];
    assert more[..|more| - 1] == incidents;
    WeightedCountNonNegative(cw, incidents);
    if |incidents| == 0 {
      assert WeightedCount(cw, more) == PriorityWeight(cw, extra);
      LoadScoreStrictlyDecreasing(0.0, PriorityWeight(cw, extra));
    } else {
      LoadScoreStrictlyDecreasing(WeightedCount(cw, incidents), WeightedCount(cw, more));
    }
  }

  /** Every default priority weight is positive, so the default tables never divide by zero. */
  lemma DefaultWeightsNonNegative()
    ensures NonNegativeWeights(DEFAULT)
  {
    Config.PriorityWeightsOrdered();
  }

  // ---------------------------------------------------------------------------------------
  // Role score

  /** min(experience * 0.02, 0.2). */
  function ExperienceBonus(experience: int): (b: real)
    ensures b <= 0.2
  {
    Min(experience as real * 0.02, 0.2)
  }

  /** The role table entry for the ASCII upper-casing of role, 1.0 for a role not in the table. */
  function BaseMultiplier(cw: Calculator, role: string): real {
    var key := Upper(role);
    if key in cw.roleMultipliers then cw.roleMultipliers[key] else 1.0
  }

  function RoleScore(cw: Calculator, role: string, experience: int): real {
    BaseMultiplier(cw, role) * (1.0 + ExperienceBonus(experience))
  }

  /** The bonus never lifts the score above 120% of the base, it reaches that cap at ten
      years, and with non-negative experience the score is at least the base. */
  lemma RoleScoreBounds(cw: Calculator, role: string, experience: int)
    requires BaseMultiplier(cw, role) >= 0.0
    ensures RoleScore(cw, role, experience) <= BaseMultiplier(cw, role) * 1.2
    ensures experience >= 0 ==> RoleScore(cw, role, experience) >= BaseMultiplier(cw, role)
    ensures experience >= 10 ==> RoleScore(cw, role, experience) == BaseMultiplier(cw, role) * 1.2
  {
    var base, bonus := BaseMultiplier(cw, role), ExperienceBonus(experience);
    assert RoleScore(cw, role, experience) == base + base * bonus;
    assert base * 1.2 == base + base * 0.2;
    assert base * bonus <= base * 0.2 by {
      assert base * (0.2 - bonus) >= 0.0;
    }
    if experience >= 0 {
      assert bonus >= 0.0;
      assert base * bonus >= 0.0;
    }
    if experience >= 10 {
      assert bonus == 0.2;
    }
  }

  /** More experience never lowers the role score. */
  lemma RoleScoreMonotone(cw: Calculator, role: string, e1: int, e2: int)
    requires BaseMultiplier(cw, role) >= 0.0 && e1 <= e2
    ensures RoleScore(cw, role, e1) <= RoleScore(cw, role, e2)
  {
    var base := BaseMultiplier(cw, role);
    var b1, b2 := ExperienceBonus(e1), ExperienceBonus(e2);
    assert b1 <= b2;
    assert base * (b2 - b1) >= 0.0;
    assert base * (1.0 + b1) <= base * (1.0 + b2);
  }

  /** The role is looked up ignoring ASCII case. */
  lemma RoleScoreIgnoresCase(cw: Calculator, role: string, experience: int)
    ensures RoleScore(cw, role, experience) == RoleScore(cw, Upper(role), experience)
  {
    UpperIdempotent(role);
  }

  /** The default base multipliers, the role text matched in any case. */
  lemma DefaultBaseMultipliers()
    ensures BaseMultiplier(DEFAULT, "L3") == 1.5 && BaseMultiplier(DEFAULT, "L2") == 1.2
    ensures BaseMultiplier(DEFAULT, "L1") == 1.0 && BaseMultiplier(DEFAULT, "TRAINEE") == 0.8
    ensures BaseMultiplier(DEFAULT, "SME") == 1.0
  {
    assert BaseMultiplier(DEFAULT, "L3") == 1.5 by { DefaultMultiplierOf("L3"); }
    assert BaseMultiplier(DEFAULT, "L2") == 1.2 by { DefaultMultiplierOf("L2"); }
    assert BaseMultiplier(DEFAULT, "L1") == 1.0 by { DefaultMultiplierOf("L1"); }
    DefaultTraineeMultiplier();
    DefaultUnlistedMultiplier();
  }

  lemma DefaultTraineeMultiplier()
    ensures BaseMultiplier(DEFAULT, "TRAINEE") == 0.8 && BaseMultiplier(DEFAULT, "trainee") == 0.8
  {
    DefaultMultiplierOf("TRAINEE");
    assert Upper("trainee") == "TRAINEE";
  }

  /** A role missing from the table, such as SME, gets the neutral multiplier. */
  lemma DefaultUnlistedMultiplier()
    ensures BaseMultiplier(DEFAULT, "SME") == 1.0
  {
    DefaultMultiplierOf("SME");
    assert "SME" !in Config.ROLE_MULTIPLIERS.Keys;
  }

  /** For a role already in upper case, the default base multiplier is the table entry. */
  lemma DefaultMultiplierOf(role: string)
    requires forall i :: 0 <= i < |role| ==> !('a' <= role[i] <= 'z')
    ensures BaseMultiplier(DEFAULT, role) == if role in Config.ROLE_MULTIPLIERS then Config.ROLE_MULTIPLIERS[role] else 1.0
  {
    UpperOfUppercase(role);
  }

  /** With the default table and equal experience, seniority orders the scores, and a role
      not in the table scores like L1. */
  lemma DefaultRoleScoresBySeniority(experience: nat)
    ensures RoleScore(DEFAULT, "L3", experience) > RoleScore(DEFAULT, "L2", experience)
            > RoleScore(DEFAULT, "L1", experience) > RoleScore(DEFAULT, "TRAINEE", experience)
    ensures RoleScore(DEFAULT, "SME", experience) == RoleScore(DEFAULT, "L1", experience)
  {
    DefaultBaseMultipliers();
    var f := 1.0 + ExperienceBonus(experience);
    assert f >= 1.0;
  }

  // ---------------------------------------------------------------------------------------
  // Shift windows and proximity

  /** _is_time_in_shift: an inclusive window; a start after the end means the shift runs past
      midnight. */
  predicate IsTimeInShift(t: TimeOfDay, start: TimeOfDay, end: TimeOfDay) {
    if start <= end then start <= t <= end else t >= start || t <= end
  }

  /** An independent reading of the window: the time elapsed since the start of the shift,
      going round the clock, is at most the length of the shift. */
  lemma InShiftIsCircularInterval(t: TimeOfDay, start: TimeOfDay, end: TimeOfDay)
    ensures IsTimeInShift(t, start, end) <==> (t - start) % 86400 <= (end - start) % 86400
  {
    var elapsed := if t >= start then t - start else t - start + 86400;
    var length := if end >= start then end - start else end - start + 86400;
    assert (t - start) % 86400 == elapsed;
    assert (end - start) % 86400 == length;
  }

  function Abs(x: int): nat { if x < 0 then -x else x }

  /** The distance in minutes that _calculate_shift_proximity measures: for an overnight shift
      the end moves to the next day, and so does a current time before the start. */
  function ProximityDistance(current: nat, start: nat, end: nat): nat {
    var endM := if start > end then end + 1440 else end;
    var currentM := if start > end && current < start then current + 1440 else current;
    var toStart, toEnd := Abs(currentM - start), Abs(currentM - endM);
    if toStart <= toEnd then toStart else toEnd
  }

  /** max(0.1, 1 - distance / 240). */
  function ProximityScore(distance: nat): (r: real)
    ensures 0.1 <= r <= 1.0
  {
    Max(0.1, 1.0 - distance as real / 240.0)
  }

  function CalculateShiftProximity(t: TimeOfDay, start: TimeOfDay, end: TimeOfDay): real {
    ProximityScore(ProximityDistance(WholeMinutes(t), WholeMinutes(start), WholeMinutes(end)))
  }

  /** The score is at least 0.3 exactly within 168 minutes, and sits on its 0.1 floor from
      216 minutes on. */
  lemma ProximityThresholds(distance: nat)
    ensures ProximityScore(distance) >= 0.3 <==> distance <= 168
    ensures ProximityScore(distance) == 0.1 <==> distance >= 216
    ensures ProximityScore(distance) == 1.0 <==> distance == 0
  {
  }

  /** Seconds do not matter: only whole minutes enter the distance. */
  lemma ProximityIgnoresSeconds(t: TimeOfDay, start: TimeOfDay, end: TimeOfDay)
    ensures CalculateShiftProximity(t, start, end)
            == CalculateShiftProximity(t - t % 60, start - start % 60, end - end % 60)
  {
    assert (t - t % 60) / 60 == t / 60;
    assert (start - start % 60) / 60 == start / 60;
    assert (end - end % 60) / 60 == end / 60;
  }

  /** Off an overnight shift the current time is always moved to the next day, so the gap to
      the start is measured the long way round the clock. */
  lemma OvernightGapDistance(current: nat, start: nat, end: nat)
    requires end < current < start < 1440
    ensures ProximityDistance(current, start, end)
            == if current + 1440 - start <= current - end then current + 1440 - start else current - end
  {
  }

  /** Shift 22:00-06:00 at 12:00: min(840, 360) minutes, the 0.1 floor; at 21:30, half an
      hour before the shift, the distance is 930 minutes and the score is also 0.1. */
  lemma OvernightExamples()
    ensures ProximityDistance(720, 1320, 360) == 360
    ensures CalculateShiftProximity(43200, 79200, 21600) == 0.1
    ensures ProximityDistance(1290, 1320, 360) == 930
    ensures CalculateShiftProximity(77400, 79200, 21600) == 0.1
  {
  }

  // ---------------------------------------------------------------------------------------
  // Availability score

  predicate WeekendExcluded(m: MemberData, now: Instant) {
    IsWeekend(now) && !m.weekendShiftFlag
  }

  /** _calculate_availability_score. The rules apply in this order: the weekend rule, then
      unparseable shift text (0.5), then on duty (1.0), then the proximity score. */
  function CalculateAvailabilityScore(m: MemberData, now: Instant): (r: real)
    ensures 0.1 <= r <= 1.0
    ensures WeekendExcluded(m, now) ==> r == 0.1
    ensures !WeekendExcluded(m, now) && (m.shiftStart.None? || m.shiftEnd.None?) ==> r == 0.5
    ensures r == 1.0 <==>
              !WeekendExcluded(m, now) && m.shiftStart.Some? && m.shiftEnd.Some?
              && (IsTimeInShift(now.time, m.shiftStart.value, m.shiftEnd.value)
                  || ProximityDistance(WholeMinutes(now.time), WholeMinutes(m.shiftStart.value),
                                       WholeMinutes(m.shiftEnd.value)) == 0)
  {
    if WeekendExcluded(m, now) then 0.1
    else if m.shiftStart.None? || m.shiftEnd.None? then 0.5
    else if IsTimeInShift(now.time, m.shiftStart.value, m.shiftEnd.value) then 1.0
    else
      ProximityThresholds(ProximityDistance(WholeMinutes(now.time), WholeMinutes(m.shiftStart.value),
                                            WholeMinutes(m.shiftEnd.value)));
      CalculateShiftProximity(now.time, m.shiftStart.value, m.shiftEnd.value)
  }

  // ---------------------------------------------------------------------------------------
  // Composite weight and ranking

  /** The inputs behind one member's scores, kept for the audit record. */
  datatype CalculationDetails = CalculationDetails(
    workloadIncidents: nat,
    workloadScoreRaw: real,
    roleScoreRaw: real,
    availabilityScoreRaw: real,
    workloadWeight: real,
    roleWeight: real,
    availabilityWeight: real,
    incidentPriority: Option<string>,
    memberRole: string,
    memberExperience: int)

  datatype MemberWeight = MemberWeight(
    memberId: string,
    memberName: string,
    workloadScore: real,
    roleScore: real,
    availabilityScore: real,
    finalWeight: real,
    details: CalculationDetails)

  /** member_workloads.get(member_id, []). */
  function WorkloadOf(workloads: map<string, seq<OpenIncident>>, id: string): seq<OpenIncident> {
    if id in workloads then workloads[id] else []
  }

  /** The weighted sum of the three scores (not normalised). */
  function FinalWeight(cw: Calculator, workload: real, role: real, availability: real): real {
    workload * cw.workloadWeight + role * cw.roleWeight + availability * cw.availabilityWeight
  }

  /** The entry for one member, or None when computing it raises (the division by zero). */
  function ScoreMember(cw: Calculator, m: MemberData, workloads: map<string, seq<OpenIncident>>,
                       priority: Option<string>, now: Instant): (r: Option<MemberWeight>)
    ensures r.Some? <==> WorkloadScore(cw, WorkloadOf(workloads, m.memberId)).Some?
    ensures r.Some? ==> r.value.memberId == m.memberId && r.value.memberName == m.memberName
    ensures r.Some? ==>
              r.value.finalWeight == FinalWeight(cw, r.value.workloadScore, r.value.roleScore, r.value.availabilityScore)
    ensures r.Some? ==> 0.1 <= r.value.availabilityScore <= 1.0
  {
    var incidents := WorkloadOf(workloads, m.memberId);
    match WorkloadScore(cw, incidents)
    case None => None
    case Some(w) =>
      var role := RoleScore(cw, m.role, m.experienceLevel);
      var availability := CalculateAvailabilityScore(m, now);
      Some(MemberWeight(m.memberId, m.memberName, w, role, availability,
                        FinalWeight(cw, w, role, availability),
                        CalculationDetails(|incidents|, w, role, availability, cw.workloadWeight,
                                           cw.roleWeight, cw.availabilityWeight, priority,
                                           m.role, m.experienceLevel)))
  }

  /** The entries of the members that could be scored, in roster order. */
  function ScoredMembers(cw: Calculator, members: seq<MemberData>, workloads: map<string, seq<OpenIncident>>,
                         priority: Option<string>, now: Instant): seq<MemberWeight>
  {
    if members == [] then []
    else
      var last := ScoreMember(cw, members[|members| - 1], workloads, priority, now);
      ScoredMembers(cw, members[..|members| - 1], workloads, priority, now)
      + (if last.Some? then [last.value] else [])
  }

  /** Each entry comes from a roster member, and every member that can be scored has one. */
  lemma {:induction false} ScoredMembersFromRoster(cw: Calculator, members: seq<MemberData>,
                                                  workloads: map<string, seq<OpenIncident>>,
                                                  priority: Option<string>, now: Instant)
    ensures forall mw :: mw in ScoredMembers(cw, members, workloads, priority, now) ==>
              exists m :: m in members && ScoreMember(cw, m, workloads, priority, now) == Some(mw)
    ensures forall m :: m in members && ScoreMember(cw, m, workloads, priority, now).Some? ==>
              ScoreMember(cw, m, workloads, priority, now).value in ScoredMembers(cw, members, workloads, priority, now)
    ensures |ScoredMembers(cw, members, workloads, priority, now)| <= |members|
  {
    if members != [] {
      var init := members[..|members| - 1];
      ScoredMembersFromRoster(cw, init, workloads, priority, now);
      assert members == init + [members[|members| - 1]];
    }
  }

  /** With non-negative priority weights every member is scored. */
  lemma {:induction false} NonNegativeWeightsScoreEveryone(cw: Calculator, members: seq<MemberData>,
                                                          workloads: map<string, seq<OpenIncident>>,
                                                          priority: Option<string>, now: Instant)
    requires NonNegativeWeights(cw)
    ensures |ScoredMembers(cw, members, workloads, priority, now)| == |members|
  {
    if members != [] {
      NonNegativeWeightsScoreEveryone(cw, members[..|members| - 1], workloads, priority, now);
      WorkloadScoreRange(cw, WorkloadOf(workloads, members[|members| - 1].memberId));
    }
  }

  function NegatedFinalWeight(mw: MemberWeight): real { -mw.finalWeight }

  /** member_weights.sort(key=final_weight, reverse=True): Python's sort is stable also when
      reversed, so this is a stable ascending sort on the negated weight. */
  function RankByFinalWeight(s: seq<MemberWeight>): seq<MemberWeight> {
    Sorting.SortAsc(s, NegatedFinalWeight)
  }

  /** The ranking is a permutation of its input, non-increasing in final weight. */
  lemma RankByFinalWeightSorted(s: seq<MemberWeight>)
    ensures |RankByFinalWeight(s)| == |s| && multiset(RankByFinalWeight(s)) == multiset(s)
    ensures forall i, j :: 0 <= i < j < |s| ==>
              RankByFinalWeight(s)[i].finalWeight >= RankByFinalWeight(s)[j].finalWeight
  {
    Sorting.SortAscCorrect(s, NegatedFinalWeight);
    var r := RankByFinalWeight(s);
    forall i, j | 0 <= i < j < |s|
      ensures r[i].finalWeight >= r[j].finalWeight
    {
      assert NegatedFinalWeight(r[i]) <= NegatedFinalWeight(r[j]);
    }
  }

  /** Besides, the ranking keeps the members of equal weight in input order, and puts first
      the earliest member of maximal weight. */
  lemma RankByFinalWeightCorrect(s: seq<MemberWeight>)
    ensures |RankByFinalWeight(s)| == |s| && multiset(RankByFinalWeight(s)) == multiset(s)
    ensures forall i, j :: 0 <= i < j < |s| ==>
              RankByFinalWeight(s)[i].finalWeight >= RankByFinalWeight(s)[j].finalWeight
    ensures forall k :: Sorting.WithKey(RankByFinalWeight(s), NegatedFinalWeight, k)
                        == Sorting.WithKey(s, NegatedFinalWeight, k)
    ensures |s| > 0 ==>
              exists i :: 0 <= i < |s| && RankByFinalWeight(s)[0] == s[i]
                && (forall j :: 0 <= j < |s| ==> s[j].finalWeight <= s[i].finalWeight)
                && (forall j :: 0 <= j < i ==> s[j].finalWeight < s[i].finalWeight)
  {
    RankByFinalWeightSorted(s);
    var r := RankByFinalWeight(s);
    forall k
      ensures Sorting.WithKey(r, NegatedFinalWeight, k) == Sorting.WithKey(s, NegatedFinalWeight, k)
    {
      Sorting.SortAscStable(s, NegatedFinalWeight, k);
    }
    if |s| > 0 {
      var i := Sorting.SortAscHead(s, NegatedFinalWeight);
      assert forall j :: 0 <= j < |s| ==> NegatedFinalWeight(s[i]) <= NegatedFinalWeight(s[j]);
      assert forall j :: 0 <= j < i ==> NegatedFinalWeight(s[i]) < NegatedFinalWeight(s[j]);
    }
  }

  const NO_MEMBERS_MESSAGE: string := "No available members to calculate weights for"
  const NONE_SCORED_MESSAGE: string := "Failed to calculate weights for any members"

  /** What calculate_member_weights returns or raises. */
  function MemberWeightsResult(cw: Calculator, members: seq<MemberData>,
                               workloads: map<string, seq<OpenIncident>>,
                               priority: Option<string>, now: Instant): Result<seq<MemberWeight>, IncidentAssignmentError>
  {
    if |members| == 0 then Failure(WeightCalculationError(NO_MEMBERS_MESSAGE))
    else
      var scored := ScoredMembers(cw, members, workloads, priority, now);
      if |scored| == 0 then Failure(WeightCalculationError(NONE_SCORED_MESSAGE))
      else Success(RankByFinalWeight(scored))
  }

  /** The body of the scoring loop for one member; a failed workload score skips the member. */
  method ScoreOneMember(cw: Calculator, member: MemberData, workloads: map<string, seq<OpenIncident>>,
                        priority: Option<string>, now: Instant) returns (r: Option<MemberWeight>)
    ensures r == ScoreMember(cw, member, workloads, priority, now)
  {
    var incidents := WorkloadOf(workloads, member.memberId);
    var workloadScore := CalculateWorkloadScore(cw, incidents);
    if workloadScore.None? {
      return None;
    }
    var roleScore := RoleScore(cw, member.role, member.experienceLevel);
    var availabilityScore := CalculateAvailabilityScore(member, now);
    var finalWeight := FinalWeight(cw, workloadScore.value, roleScore, availabilityScore);
    var details := CalculationDetails(|incidents|, workloadScore.value, roleScore, availabilityScore,
                                      cw.workloadWeight, cw.roleWeight, cw.availabilityWeight,
                                      priority, member.role, member.experienceLevel);
    r := Some(MemberWeight(member.memberId, member.memberName, workloadScore.value,
                           roleScore, availabilityScore, finalWeight, details));
  }

  method CalculateMemberWeights(cw: Calculator, members: seq<MemberData>,
                                workloads: map<string, seq<OpenIncident>>,
                                priority: Option<string>, now: Instant)
    returns (r: Result<seq<MemberWeight>, IncidentAssignmentError>)
    ensures r == MemberWeightsResult(cw, members, workloads, priority, now)
    ensures |members| == 0 ==> r == Failure(WeightCalculationError(NO_MEMBERS_MESSAGE))
    ensures r.Failure? <==> ScoredMembers(cw, members, workloads, priority, now) == []
    ensures r.Success? ==>
              multiset(r.value) == multiset(ScoredMembers(cw, members, workloads, priority, now))
              && forall i, j :: 0 <= i < j < |r.value| ==> r.value[i].finalWeight >= r.value[j].finalWeight
  {
    if |members| == 0 {
      return Failure(WeightCalculationError(NO_MEMBERS_MESSAGE));
    }
    var memberWeights: seq<MemberWeight> := [];
    var i := 0;
    while i < |members|
      invariant 0 <= i <= |members|
      invariant memberWeights == ScoredMembers(cw, members[..i], workloads, priority, now)
    {
      ScoredMembersStep(cw, members, workloads, priority, now, i);
      var entry := ScoreOneMember(cw, members[i], workloads, priority, now);
      if entry.Some? {
        memberWeights := memberWeights + [entry.value];
      }
      i := i + 1;
    }
    assert members[..i] == members;
    if |memberWeights| == 0 {
      return Failure(WeightCalculationError(NONE_SCORED_MESSAGE));
    }
    RankByFinalWeightSorted(memberWeights);
    r := Success(RankByFinalWeight(memberWeights));
  }

  /** Scoring one more member of the roster appends that member's entry, if any. */
  lemma ScoredMembersStep(cw: Calculator, members: seq<MemberData>, workloads: map<string, seq<OpenIncident>>,
                          priority: Option<string>, now: Instant, i: nat)
    requires i < |members|
    ensures var last := ScoreMember(cw, members[i], workloads, priority, now);
            ScoredMembers(cw, members[..i + 1], workloads, priority, now)
            == ScoredMembers(cw, members[..i], workloads, priority, now) + (if last.Some? then [last.value] else [])
  {
    assert members[..i + 1][..i] == members[..i];
    assert members[..i + 1][i] == members[i];
  }

  /** The ranked list starts with the earliest-listed member of greatest final weight. */
  lemma RankedHeadIsEarliestBest(cw: Calculator, members: seq<MemberData>,
                                 workloads: map<string, seq<OpenIncident>>,
                                 priority: Option<string>, now: Instant) returns (i: nat)
    requires MemberWeightsResult(cw, members, workloads, priority, now).Success?
    ensures var ranked := MemberWeightsResult(cw, members, workloads, priority, now).value;
            var scored := ScoredMembers(cw, members, workloads, priority, now);
            && i < |scored| && |ranked| > 0 && ranked[0] == scored[i]
            && (forall j :: 0 <= j < |scored| ==> scored[j].finalWeight <= scored[i].finalWeight)
            && (forall j :: 0 <= j < i ==> scored[j].finalWeight < scored[i].finalWeight)
  {
    var scored := ScoredMembers(cw, members, workloads, priority, now);
    var ranked := RankByFinalWeight(scored);
    assert MemberWeightsResult(cw, members, workloads, priority, now).value == ranked;
    RankByFinalWeightCorrect(scored);
    i :| 0 <= i < |scored| && ranked[0] == scored[i]
         && (forall j :: 0 <= j < |scored| ==> scored[j].finalWeight <= scored[i].finalWeight)
         && (forall j :: 0 <= j < i ==> scored[j].finalWeight < scored[i].finalWeight);
  }

  // ---------------------------------------------------------------------------------------
  // Selection and explanation

  const LOW_WORKLOAD: string := "low current workload"
  const MODERATE_WORKLOAD: string := "moderate workload"
  const MANAGEABLE_WORKLOAD: string := "manageable workload"
  const HIGH_EXPERIENCE: string := "high experience level"
  const SUITABLE_EXPERIENCE: string := "suitable experience"
  const CURRENTLY_AVAILABLE: string := "currently available"
  const PARTIALLY_AVAILABLE: string := "partially available"

  /** The assignment reason: the winner's name, its phrases and its final weight (the text
      rendering of the number is left to ReasonText's caller). */
  datatype AssignmentReason = AssignmentReason(memberName: string, phrases: seq<string>, finalWeight: real)

  /** "Selected NAME due to: p1, p2. Final weight: W", with W the formatted weight. */
  function ReasonText(reason: AssignmentReason, weightText: string): (text: string)
    ensures ("Selected " + reason.memberName + " due to: ") <= text
  {
    "Selected " + reason.memberName + " due to: " + Join(reason.phrases, ", ") + ". Final weight: " + weightText
  }

  const NO_WEIGHTS_MESSAGE: string := "No member weights provided for selection"

  /** select_best_member: the head of the (already ranked) list and the reason for choosing it. */
  method SelectBestMember(memberWeights: seq<MemberWeight>)
    returns (r: Result<(MemberWeight, AssignmentReason), IncidentAssignmentError>)
    ensures r.Failure? <==> |memberWeights| == 0
    ensures r.Failure? ==> r.error == WeightCalculationError(NO_WEIGHTS_MESSAGE)
    ensures r.Success? ==>
              r.value.0 == memberWeights[0]
              && r.value.1 == AssignmentReason(memberWeights[0].memberName, ReasonPhrases(memberWeights[0]),
                                               memberWeights[0].finalWeight)
  {
    if |memberWeights| == 0 {
      return Failure(WeightCalculationError(NO_WEIGHTS_MESSAGE));
    }
    var best := memberWeights[0];
    var parts: seq<string> := [];
    if best.workloadScore > 0.8 {
      parts := parts + [LOW_WORKLOAD];
    } else if best.workloadScore > 0.5 {
      parts := parts + [MODERATE_WORKLOAD];
    } else {
      parts := parts + [MANAGEABLE_WORKLOAD];
    }
    assert parts == [WorkloadPhrase(best.workloadScore)];
    if best.roleScore > 1.2 {
      parts := parts + [HIGH_EXPERIENCE];
    } else if best.roleScore > 1.0 {
      parts := parts + [SUITABLE_EXPERIENCE];
    }
    assert parts == [WorkloadPhrase(best.workloadScore)] + RolePhrases(best.roleScore);
    if best.availabilityScore > 0.9 {
      parts := parts + [CURRENTLY_AVAILABLE];
    } else if best.availabilityScore > 0.5 {
      parts := parts + [PARTIALLY_AVAILABLE];
    }
    r := Success((best, AssignmentReason(best.memberName, parts, best.finalWeight)));
  }

  function WorkloadPhrase(score: real): string {
    if score > 0.8 then LOW_WORKLOAD else if score > 0.5 then MODERATE_WORKLOAD else MANAGEABLE_WORKLOAD
  }

  function RolePhrases(score: real): seq<string> {
    if score > 1.2 then [HIGH_EXPERIENCE] else if score > 1.0 then [SUITABLE_EXPERIENCE] else []
  }

  function AvailabilityPhrases(score: real): seq<string> {
    if score > 0.9 then [CURRENTLY_AVAILABLE] else if score > 0.5 then [PARTIALLY_AVAILABLE] else []
  }

  /** The phrases that explain choosing a member, in the order they are reported. */
  function ReasonPhrases(mw: MemberWeight): seq<string> {
    [WorkloadPhrase(mw.workloadScore)] + RolePhrases(mw.roleScore) + AvailabilityPhrases(mw.availabilityScore)
  }

  /** The workload phrase always comes first; each of the seven phrases is reported exactly
      when its score lies in its band, so at most one role and one availability phrase. */
  lemma ReasonPhrasesBands(mw: MemberWeight)
    ensures var phrases := ReasonPhrases(mw);
            && 1 <= |phrases| <= 3
            && phrases[0] == WorkloadPhrase(mw.workloadScore)
            && (LOW_WORKLOAD in phrases <==> mw.workloadScore > 0.8)
            && (MODERATE_WORKLOAD in phrases <==> 0.5 < mw.workloadScore <= 0.8)
            && (MANAGEABLE_WORKLOAD in phrases <==> mw.workloadScore <= 0.5)
            && (HIGH_EXPERIENCE in phrases <==> mw.roleScore > 1.2)
            && (SUITABLE_EXPERIENCE in phrases <==> 1.0 < mw.roleScore <= 1.2)
            && (CURRENTLY_AVAILABLE in phrases <==> mw.availabilityScore > 0.9)
            && (PARTIALLY_AVAILABLE in phrases <==> 0.5 < mw.availabilityScore <= 0.9)
  {
    var w, rs, av := WorkloadPhrase(mw.workloadScore), RolePhrases(mw.roleScore), AvailabilityPhrases(mw.availabilityScore);
    assert ReasonPhrases(mw) == [w] + rs + av;
    assert forall x :: x in ReasonPhrases(mw) <==> x == w || x in rs || x in av;
    PhrasesDistinct();
  }

  lemma PhrasesDistinct()
    ensures |{LOW_WORKLOAD, MODERATE_WORKLOAD, MANAGEABLE_WORKLOAD, HIGH_EXPERIENCE, SUITABLE_EXPERIENCE,
              CURRENTLY_AVAILABLE, PARTIALLY_AVAILABLE}| == 7
  {
    assert LOW_WORKLOAD[0] == 'l' && MODERATE_WORKLOAD[0] == 'm' && MANAGEABLE_WORKLOAD[1] == 'a';
    assert MODERATE_WORKLOAD[1] == 'o' && HIGH_EXPERIENCE[0] == 'h' && SUITABLE_EXPERIENCE[0] == 's';
    assert CURRENTLY_AVAILABLE[0] == 'c' && PARTIALLY_AVAILABLE[0] == 'p';
  }

  // ---------------------------------------------------------------------------------------
  // Summary for the audit log

  datatype WeightEntry = WeightEntry(
    memberId: string,
    memberName: string,
    finalWeight: real,
    workloadScore: real,
    roleScore: real,
    availabilityScore: real)

  datatype WeightsSummary = WeightsSummary(
    totalMembersEvaluated: nat,
    weightDistribution: seq<WeightEntry>,
    selectedMember: Option<string>,
    calculationTimestamp: string)

  function EntryOf(mw: MemberWeight): WeightEntry {
    WeightEntry(mw.memberId, mw.memberName, mw.finalWeight, mw.workloadScore, mw.roleScore, mw.availabilityScore)
  }

  /** The summary get_weights_summary builds; the clock reading is passed in. */
  function WeightsSummaryOf(memberWeights: seq<MemberWeight>, timestamp: string): WeightsSummary {
    WeightsSummary(|memberWeights|, seq(|memberWeights|, i requires 0 <= i < |memberWeights| => EntryOf(memberWeights[i])),
                   if |memberWeights| == 0 then None else Some(memberWeights[0].memberId), timestamp)
  }

  method GetWeightsSummary(memberWeights: seq<MemberWeight>, timestamp: string) returns (summary: WeightsSummary)
    ensures summary == WeightsSummaryOf(memberWeights, timestamp)
    ensures summary.totalMembersEvaluated == |memberWeights|
    ensures summary.selectedMember == if |memberWeights| == 0 then None else Some(memberWeights[0].memberId)
    ensures |summary.weightDistribution| == |memberWeights|
    ensures forall i :: 0 <= i < |memberWeights| ==>
              summary.weightDistribution[i].memberId == memberWeights[i].memberId
              && summary.weightDistribution[i].finalWeight == memberWeights[i].finalWeight
  {
    var distribution: seq<WeightEntry> := [];
    var i := 0;
    while i < |memberWeights|
      invariant 0 <= i <= |memberWeights|
      invariant |distribution| == i
      invariant forall k :: 0 <= k < i ==> distribution[k] == EntryOf(memberWeights[k])
    {
      distribution := distribution + [EntryOf(memberWeights[i])];
      i := i + 1;
    }
    summary := WeightsSummary(|memberWeights|, distribution,
                              if |memberWeights| == 0 then None else Some(memberWeights[0].memberId), timestamp);
  }
}
