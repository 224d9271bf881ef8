# IncidentRouter assignment engine, modelled in Dafny

IncidentRouter decides who in a ServiceNow assignment group gets each new incident. A fetcher
polls ServiceNow for open incidents of the configured groups and queues one message per
incident. A processor takes each message, finds the members of the incident's group who are
available now, scores them, and assigns the incident to the best one.

The repository contains two processors, and the model keeps them apart:

- **The scoring engine** (`weight_calculator.py` driven by `assignment_processor.py`).
  - Each member gets a workload score `1/(1+0.5·Σw)`, a role score (a base multiplier times a
    capped experience bonus), and an availability score (in shift, or how close a shift
    boundary is, with midnight wrap-around).
  - The composite is a weighted sum. Members are ranked in a stable descending sort, and the
    winner is explained by threshold-keyed phrases.
- **The lambda variant** (`processor.py`).
  - Its workload is additive, with priority, severity and age factors. Its role multipliers
    differ, it adds a fairness term for recent assignments and a random jitter, and a lower
    score is better.
  - It is the only path that checks, before and after choosing, that the incident is still
    unassigned, and it records an assignment-history row after assigning.

Around them sit the message and log-entry builders and validators (`utils.py`,
`incident_fetcher.py`), configuration validation and the default weight tables (`config.py`),
and the ServiceNow query builder (`servicenow_client.py`).

The modules are:

- **Engine modules**
  - `WeightCalculator`, `AssignmentProcessor`, `Processor`, `Utils`, `IncidentFetcher`,
    `Config`, `ServiceNowClient`: one module per source file.
- **Shared types**
  - `Models`: clock values and the records that travel between the parts.
  - `Errors`: the exception hierarchy as a datatype.
  - `Wrappers`: the `Option`/`Result` types.
- **Generic helpers**
  - `Sequences`: filter, subsequence, join, substring, ASCII upper-casing.
  - `Sorting`: a stable insertion sort by a real key, proved sorted, a permutation and stable.

How the model stands in for the system:

- **Outside calls are inputs.** Every HTTP, database and queue call is replaced by the value it
  returns. These values are parameters or fields of an oracle record: `AssignmentEnv` for
  `process_incident_assignment`, `Delivery` for one record of the lambda handler.
- **Control flow is explicit.** Exceptions are `Result` values, and each method is proved equal
  to a specification function that follows the source's branches step by step.
- **Numbers and time.**
  - Floating-point formulas are exact `real` arithmetic.
  - A time of day is a natural number of seconds below 86400.
  - A weekday is 0 (Monday) to 6.

## Model

| member | source | states |
|---|---|---|
| Config.PriorityWeightsOrdered | config.py:32-38 | The default priority table has exactly the keys "1".."5"; every weight is positive; the weights strictly decrease from "1" to "5". |
| Config.RoleMultipliersOrdered | config.py:27-46 | The default role multipliers are ordered L3 > L2 > L1 > TRAINEE; the default factor weights are 0.4, 0.3 and 0.3. |
| Config.RequiredParams | config.py:56-64 | There are seven required settings, with seven distinct names in the order they are checked (SERVICENOW_INSTANCE, SERVICENOW_USERNAME, SERVICENOW_PASSWORD, SQS_QUEUE_URL, DB_HOST, DB_USER, DB_PASSWORD), each paired with its own setting's value. |
| Config.ValidateConfig | config.py:52-73 | The error list is the computed list of configuration errors; it is empty iff all seven required settings are non-empty. |
| Config.MissingErrorsFollowParams | config.py:66-68 | There is one "Missing required configuration: NAME" message per empty setting, in listed order. |
| Config.MissingMessageIsNotGroupsMessage | config.py:66-71 | A missing-setting message never equals the no-groups message. |
| Config.NoGroupsMessageLast | config.py:70-71 | "No assignment groups configured" is the last error iff the groups list is empty. |
| Config.ConfigErrorsEmptyIff | config.py:54-73 | No errors iff every required setting and the groups list are non-empty. |
| Config.FilterKeepsNone | config.py:66-68 | When no setting is empty, no missing-setting message is produced. |
| Models.WholeMinutes | weight_calculator.py:174-176 | hour·60 + minute of a time of day: below 1440, and within the minute that contains the time. |
| WeightCalculator.NewCalculator | weight_calculator.py:26-31 | The calculator copies the configured priority weights, role multipliers and factor weights. |
| WeightCalculator.CalculateWorkloadScore | weight_calculator.py:103-120 | The score is the workload formula. It is 1.0 for no incidents; with non-negative weights it is defined and lies in (0, 1]. |
| WeightCalculator.WeightedCountNonNegative | weight_calculator.py:109-113 | With non-negative priority weights the weighted incident count is non-negative. |
| WeightCalculator.WorkloadScoreRange | weight_calculator.py:117 | With non-negative weights the workload score lies in (0, 1]. |
| WeightCalculator.LoadScoreStrictlyDecreasing | weight_calculator.py:117 | `1/(1+0.5·w)` strictly decreases in the weighted count w. |
| WeightCalculator.AnotherIncidentLowersScore | weight_calculator.py:109-117 | One more incident of positive weight strictly lowers the workload score. |
| WeightCalculator.DefaultWeightsNonNegative | weight_calculator.py:26-31 | The default calculator's priority weights are all non-negative. |
| WeightCalculator.ExperienceBonus | weight_calculator.py:125-130 | The experience bonus never exceeds 0.2. |
| WeightCalculator.RoleScoreBounds | weight_calculator.py:122-133 | The role score lies between the base multiplier and 1.2 times it, and reaches 1.2 times it from ten years of experience. |
| WeightCalculator.RoleScoreMonotone | weight_calculator.py:122-133 | The role score never decreases as experience grows. |
| WeightCalculator.RoleScoreIgnoresCase | weight_calculator.py:125-126 | The role lookup is by the ASCII upper-cased role, so ASCII case never changes the score. |
| WeightCalculator.DefaultBaseMultipliers | weight_calculator.py:125-126 | The defaults give L3 1.5, L2 1.2, L1 1.0 and TRAINEE 0.8; an unknown role such as SME gets 1.0. |
| WeightCalculator.DefaultTraineeMultiplier | weight_calculator.py:125 | TRAINEE gets 0.8, and so does trainee written in lower case. |
| WeightCalculator.DefaultUnlistedMultiplier | weight_calculator.py:125 | A role missing from the table, such as SME, gets the neutral 1.0. |
| WeightCalculator.DefaultRoleScoresBySeniority | weight_calculator.py:122-133 | At equal experience the default role scores are ordered L3 > L2 > L1 > TRAINEE, and SME scores like L1. |
| WeightCalculator.InShiftIsCircularInterval | weight_calculator.py:162-169 | In shift exactly when the time lies within the circular interval from start to end, midnight wrap included. |
| WeightCalculator.ProximityScore | weight_calculator.py:192-194 | The proximity score always lies in [0.1, 1.0]. |
| WeightCalculator.ProximityThresholds | weight_calculator.py:192-194 | The score is ≥ 0.3 iff the distance is ≤ 168 minutes; it is 0.1 iff the distance is ≥ 216; it is 1.0 iff the distance is 0. |
| WeightCalculator.ProximityIgnoresSeconds | weight_calculator.py:174-176 | Proximity depends only on the whole minutes of the three times. |
| WeightCalculator.OvernightGapDistance | weight_calculator.py:179-190 | For an overnight shift and a time strictly between end and start, the distance is the smaller of current − end and current + 1440 − start: the gap to the start is measured the long way round the clock. |
| WeightCalculator.OvernightExamples | weight_calculator.py:171-194 | 22:00-06:00 at 12:00 measures min(840, 360) = 360 and scores 0.1; at 21:30 it measures 930 and also scores 0.1. |
| WeightCalculator.CalculateAvailabilityScore | weight_calculator.py:135-160 | The result lies in [0.1, 1]. A weekend without the weekend flag gives 0.1, which takes precedence over unparseable shift data. Unparseable shift data gives 0.5. The result is 1.0 iff the member is in shift or at distance 0. |
| WeightCalculator.ScoreMember | weight_calculator.py:42-92 | A member is scored iff their workload score is defined. The entry keeps their id and name, its final weight is the weighted sum, and its availability lies in [0.1, 1]. |
| WeightCalculator.ScoredMembersFromRoster | weight_calculator.py:42-92 | The scored list holds exactly the members that can be scored, and is no longer than the roster. |
| WeightCalculator.NonNegativeWeightsScoreEveryone | weight_calculator.py:42-92 | With non-negative weights every member is scored. |
| WeightCalculator.RankByFinalWeightSorted | weight_calculator.py:98 | The ranking is a permutation of the scored members, non-increasing by final weight. |
| WeightCalculator.RankByFinalWeightCorrect | weight_calculator.py:98 | The ranking is a permutation, non-increasing by final weight, and stable: equal weights keep input order. Its head is the earliest member of maximal weight. |
| WeightCalculator.ScoreOneMember | weight_calculator.py:42-92 | One loop iteration produces the member's score entry, or none when scoring fails. |
| WeightCalculator.CalculateMemberWeights | weight_calculator.py:33-101 | An empty roster raises. The call raises iff no member could be scored. Otherwise the result is the scored members, permuted and sorted non-increasing by final weight. |
| WeightCalculator.ScoredMembersStep | weight_calculator.py:42-86 | Scoring one more roster member appends exactly that member's entry, or nothing when it is skipped. |
| WeightCalculator.RankedHeadIsEarliestBest | weight_calculator.py:98-101 | The head of the ranking is the earliest scored member with the largest final weight. |
| WeightCalculator.ReasonText | weight_calculator.py:224 | The reason starts with "Selected NAME due to: ". |
| WeightCalculator.SelectBestMember | weight_calculator.py:196-228 | Raises iff the list is empty. Otherwise it returns element 0 with that member's name, reason phrases and final weight. |
| WeightCalculator.ReasonPhrasesBands | weight_calculator.py:207-222 | There is exactly one workload phrase (> 0.8 low, > 0.5 moderate, else manageable), at most one role phrase (> 1.2 or > 1.0), and at most one availability phrase (> 0.9 or > 0.5). Each phrase appears iff its band holds. |
| WeightCalculator.PhrasesDistinct | weight_calculator.py:207-222 | The seven reason phrases are pairwise different. |
| WeightCalculator.GetWeightsSummary | weight_calculator.py:230-249 | The total equals the list length. The selected member is the first id, or None for an empty list. The distribution has one entry per member, in input order. |
| AssignmentProcessor.IsMemberCurrentlyAvailable | assignment_processor.py:297-332 | A weekend without the weekend flag gives unavailable. Unparseable shift data gives available (fails open). Otherwise the member is available iff in shift or within 168 whole minutes of a boundary. |
| AssignmentProcessor.GateExamples | assignment_processor.py:297-332 | A 22:00-06:00 member is unavailable at 21:30 on a weekday; a 09:00-17:00 member is available at 08:00. |
| AssignmentProcessor.AvailableMembersCorrect | assignment_processor.py:271-291 | The available members form an order-preserving subsequence of the database roster. A member is kept iff their id is a ServiceNow user name and they are currently available. |
| AssignmentProcessor.GetAvailableMembers | assignment_processor.py:260-295 | A database error propagates, and an empty roster gives []. Otherwise the result is the filtered roster. |
| AssignmentProcessor.FirstWithUserName | assignment_processor.py:359-364 | None iff no entry has the user name. Otherwise the result is the first entry that has it. |
| AssignmentProcessor.FindServiceNowMember | assignment_processor.py:359-364 | The early-return loop returns the first matching entry. |
| AssignmentProcessor.GetMemberWorkloads | assignment_processor.py:334-357 | Every available member's id is a key, and no other key exists. An unknown user or a ServiceNow error maps to []. |
| AssignmentProcessor.WorkloadsUnique | assignment_processor.py:334-357 | Any map with those keys and values is the workload map. |
| AssignmentProcessor.LogAssignmentDecision | assignment_processor.py:374-411 | Building the log entry fails, with a KeyError, iff incident_number, assignment_group or priority is absent. Otherwise the entry is the one built from the incident and the member. |
| AssignmentProcessor.AssignBest | assignment_processor.py:174-200 | The steps after ranking: pick the head, find the head in the ServiceNow list, assign, and log. |
| AssignmentProcessor.TryAssign | assignment_processor.py:143-200 | The body of the try block, step by step, with the first raised error ending it. |
| AssignmentProcessor.ProcessIncidentAssignment | assignment_processor.py:133-248 | The outcome is what the try block and its handlers give. |
| AssignmentProcessor.CandidatesCorrect | assignment_processor.py:153-171 | A successful ranking is non-empty, non-increasing by final weight, and drawn from the available roster. |
| AssignmentProcessor.RankedFromRoster | assignment_processor.py:167-171 | Every ranked member comes from the roster, and the ranking is sorted and non-empty. |
| AssignmentProcessor.WinnerAlwaysInServiceNow | assignment_processor.py:177-180 | The ranked head is always found in the ServiceNow member list. |
| AssignmentProcessor.NeverWinnerNotInServiceNow | assignment_processor.py:177-180 | The "member not found in ServiceNow" branch is never taken. |
| AssignmentProcessor.CandidatesDriveAttempt | assignment_processor.py:153-200 | Without a ranking the attempt fails or stops at "no members"; with one it continues on the ranking. |
| AssignmentProcessor.AssignedExactly | assignment_processor.py:153-248 | True iff there is a ranking, its head is found, the assign call returns True, and the log entry can be built. |
| AssignmentProcessor.AssignedChosenMember | assignment_processor.py:174-197 | When the result is True, the assigned member is the head of the ranking and the assignee is that member's ServiceNow sys_id. The assign call returned True, and the decision counts as logged iff its write did not fail. |
| AssignmentProcessor.AssignedIfAccepted | assignment_processor.py:182-197 | With a ranking, an accepted assign call for the head's ServiceNow entry and the log-entry keys present, the result is True. |
| AssignmentProcessor.OutcomeThroughCandidates | assignment_processor.py:153-248 | Without a ranking there is no assignment. With one, the outcome is an assignment iff the steps after ranking make one, and it is that one. |
| AssignmentProcessor.AfterRankingAssigned | assignment_processor.py:174-197 | After ranking, the outcome is an assignment iff the head has a ServiceNow entry, the assign call returns True and the log entry can be built. The assignment names the head and that entry's sys_id. |
| AssignmentProcessor.DecisionLogFailureKeepsResult | assignment_processor.py:405-411 | A DatabaseError while writing the decision does not change the result. |
| AssignmentProcessor.FetchedMessageAssignedWhenAccepted | assignment_processor.py:182-200 | For a message built by the fetcher, an accepted assign call means True. |
| AssignmentProcessor.NobodyAvailableIsHandled | assignment_processor.py:159-161 | With nobody available, the no-available-members handler logs a warning and the result is False. |
| AssignmentProcessor.NonNegativeWeightsAlwaysRank | assignment_processor.py:164-171 | With non-negative weights and somebody available, ranking succeeds. |
| AssignmentProcessor.OutcomesOf | assignment_processor.py:102-128 | There is one outcome per message: None for an unparseable one, otherwise the assignment outcome. |
| AssignmentProcessor.CountOutcome | assignment_processor.py:104-128 | The counter, error-list and deletion updates for a message whose outcome is known. |
| AssignmentProcessor.ProcessMessage | assignment_processor.py:104-128 | One loop iteration: the counter, error-list and deletion updates for one message. |
| AssignmentProcessor.ProcessSqsMessages | assignment_processor.py:83-131 | Processed plus invalid equals the count of messages, and successful plus failed equals processed. A message is deleted iff it parsed and its assignment returned True. |
| AssignmentProcessor.TallyCounts | assignment_processor.py:102-128 | The counters add up, there is one error line per invalid message and per escaped exception, and the deletions are exactly the successes, in increasing order. |
| Processor.GroupIdsMembers | processor.py:55-62 | An id is a group member iff it is non-empty and some row's unwrapped user is that id. |
| Processor.GroupMemberIds | processor.py:45-62 | The ids are the distinct non-empty unwrapped users: no duplicates, no "", a dict user unwrapped to its value. |
| Processor.RowOnShift | processor.py:84-105 | The intended shift test (see Findings). A queried row is kept iff its day list mentions the weekday, both shift bounds are present and the time lies in the window, overnight windows included. |
| Processor.FetchMemberRows | processor.py:64-105 | Equals the row filter with the intended shift test (see Findings). Empty ids give []. Every returned row is on shift. |
| Processor.ShiftTestAsWrittenRaises | processor.py:96-98 | As written, no row is ever kept. The comparison raises exactly when the day matches and both bounds are present, and so on every row the intended test would keep. |
| Processor.FilterAsWrittenKeepsNothing | processor.py:84-105 | As written, the filter fails iff some row reaches the comparison, and otherwise returns []. |
| Processor.ShiftComparisonExample | processor.py:96-98 | A Monday 09:00-17:00 row at Monday noon is kept by the intended test but makes the code as written raise. |
| Processor.MemberRowsExactly | processor.py:69-105 | The rows are an order-preserving subsequence of the table. A row is kept iff its id is among the ids, the group matches, it is active, and it is on shift. |
| Processor.WeekendFlagAdmitsNothing | processor.py:86-92 | The weekend flag never admits a row, and a kept row's day list contains the weekday abbreviation. |
| Processor.PriorityWeight | processor.py:119-131 | The priority weight lies in [0.5, 6]. |
| Processor.SeverityMult | processor.py:120-132 | The severity multiplier lies in [1, 1.3]. |
| Processor.AgeHours | processor.py:128 | The age is never negative, and a non-negative age is kept as is. |
| Processor.ContributionAtLeastHalf | processor.py:129-133 | Every incident contributes at least 0.5. |
| Processor.BaseWorkloadBounds | processor.py:116-135 | The workload is at least 0.5 per incident, and it is 0 iff there are no incidents. |
| Processor.DayOldCountsDouble | processor.py:129 | A day-old incident counts twice as much as a fresh one. |
| Processor.DefaultCodes | processor.py:119-132 | Missing or empty codes count as "3", unknown codes weigh 1.0, and "1"/"1" weighs 7.8. |
| Processor.ComputeBaseWorkload | processor.py:116-135 | The accumulated sum is the workload, at least 0.5 per incident, and 0.0 for none. |
| Processor.BaseWorkloadStep | processor.py:118-133 | Each loop iteration adds exactly one incident's contribution to the running sum. |
| Processor.EntryFor | processor.py:140-160 | An error fetching incidents comes first, then an error counting recent assignments. The entry holds these fields and a final weight within [steady, steady + 0.01], where steady is base·role·modifier + 0.1·recent. |
| Processor.ScoresOneToOne | processor.py:140-160 | There is one score per candidate, in order, with matching ids. |
| Processor.ScoresStep | processor.py:140-160 | After a successful prefix, one more candidate either appends its entry or fails with that entry's error. |
| Processor.ScoresFailureSticks | processor.py:140-160 | A failure on a prefix of the candidates is the failure of the whole loop. |
| Processor.ScoreCandidate | processor.py:141-160 | One loop iteration computes the candidate's entry. |
| Processor.SelectBestMember | processor.py:137-164 | Equals the selection; no candidates gives (None, []). |
| Processor.SelectionCorrect | processor.py:161-164 | The snapshot is the scores sorted ascending, a permutation with one entry per candidate. The chosen member is the earliest candidate with the least final weight, and None iff there are no candidates. |
| Processor.JitterKeepsClearLeads | processor.py:150-151 | A steady lead larger than 0.01 survives the jitter. |
| Processor.RoleMultipliers | processor.py:143-149 | A missing or empty role counts as L2 = 1.0. The lookup is case-sensitive. SME < L3 < L2 < L1. A missing modifier or 0 gives 1.0. |
| Processor.PyPrefix | processor.py:229 | The truncation is a prefix of length min(n, len), or len + n clipped at 0 for a negative n. |
| Processor.Bind | processor.py:188-189 | Binding parameters to the VALUES slots yields one value per column. |
| Processor.BindPlaceholders | processor.py:188-189 | A list of %s slots binds the parameters one to one. |
| Processor.BindNowFirst | processor.py:188-189 | With NOW() first, the current time is bound to the first column and the parameters follow in order. |
| Processor.BindNowAt | processor.py:188-189 | NOW() after k slots puts the current time in column k and shifts the later parameters one column right. |
| Processor.BindAsWritten | processor.py:188-189 | With NOW() in the third slot, the parameters shift one column right from the third. |
| Processor.BindIntended | processor.py:188-189 | With NOW() in the fourth slot, each parameter is bound to its own column. |
| Processor.HistoryRowAsWritten | processor.py:184-191 | As written, NOW() is bound to assigned_to_member_sys_id and the member id to assignment_timestamp. |
| Processor.AsWrittenHistoryIsNeverCounted | processor.py:166-175 | The as-written row never has a member id in the column the recent-assignment count matches on. |
| Processor.HistoryRow | processor.py:184-191 | The corrected row puts every value in its named column: the member under assigned_to_member_sys_id and NOW() under assignment_timestamp. |
| Processor.HandleRecord | processor.py:201-248 | One record's outcome and call sequence equal the handler's specification. |
| Processor.ChooseAndAssign | processor.py:217-243 | The steps after a clear pre-check, step by step. |
| Processor.ConfirmAndAssign | processor.py:236-243 | The post-check, the assign and the history insert, step by step; the insert records the corrected history row (see Findings). |
| Processor.ChosenMember | processor.py:217-233 | Whenever a clear pre-check leads to further calls, the group, the instant and the rows were good and a non-empty member was selected. |
| Processor.FinishOrder | processor.py:236-243 | The calls follow the order post-check, assign, history; each step is taken only after the one before succeeded. |
| Processor.CallOrder | processor.py:209-243 | Every record's calls are a prefix of pre-check, post-check, assign, history. Assign comes only after two clear checks, and history only after the assign succeeded. |
| Processor.PreCheckSkips | processor.py:209-215 | An incident that is not found, or already assigned, is skipped with only the pre-check. |
| Processor.PostCheckSkips | processor.py:236-239 | An assignee at the post-check means no assign and no history. |
| Processor.RedeliveryIsSkipped | processor.py:209-215 | Redelivering an assigned incident, whose pre-check now shows the assignee, is skipped. |
| Processor.AssignedIsChosen | processor.py:224-240 | The assigned member is the one selected from the limited candidate rows. |
| Processor.AssignedMemberQualifies | processor.py:217-240 | Whoever is assigned is a group member and has an active, on-shift row of the incident's group in the member table. |
| Processor.HistoryAfterAssign | processor.py:240-243 | A history row is written only after all three earlier calls, with the member in the assignee column of the corrected row (see Findings). |
| Processor.FinishHistory | processor.py:236-243 | In the post-check stage, a history insert follows the assign call for the same member. Its row is the corrected history row (see Findings), carrying the ranking snapshot. |
| Processor.HistoryRejectedAfterAssign | processor.py:240-248 | When the history insert is rejected, the record fails with that error after the post-check and the assign call were made. |
| Processor.NoCandidatesNoAssign | processor.py:229-235 | A candidate limit of 0 never assigns. |
| Processor.LambdaHandler | processor.py:199-248 | Each record's result is the per-record run. An unparseable body stops the batch exactly at that record. |
| Utils.FilterAvailableMembers | utils.py:141-162 | The result is an order-preserving subsequence. A member is kept iff active (a missing flag counts as active) and, on a weekend, flagged for weekends. |
| Utils.WeekdayKeepsAllActive | utils.py:154-159 | On a weekday every active member is kept. |
| Utils.RequiredFieldsNamed | utils.py:166 | The four required fields are incident_number, assignment_group, priority and opened_at. |
| Utils.ValidateIncidentData | utils.py:164-173 | True iff all four required fields are present and truthy. |
| Utils.Carried | utils.py:78-86 | A copied field is always present, and it reads as its source's value or None. |
| Utils.FormatIncidentForSqs | utils.py:76-87 | number becomes incident_number, and the group comes from the argument. The other fields are copied, with missing ones becoming None. |
| Utils.FormattedMessageHasEveryKey | utils.py:76-87 | Every one of the eight keys is present in the message. |
| Utils.CreateAssignmentLogEntry | utils.py:175-191 | A KeyError iff incident_number, assignment_group or priority is absent. Otherwise the member's id, name, scores and final weight and the incident's number, group, priority and optional severity are copied. |
| Utils.FormattedMessageLogs | utils.py:175-191 | A message built by the formatter always yields a log entry. |
| IncidentFetcher.ExtractAssignmentGroupName | incident_fetcher.py:223-239 | A falsy group gives "". A string is returned unchanged. A dict gives display_value, else value, else "". Any other value gives its text. |
| IncidentFetcher.ReferenceGroupName | incident_fetcher.py:231-235 | A reference group yields a usable name iff its display_value, or failing that key its value, is a non-empty string. |
| IncidentFetcher.ValidateIncidentData | incident_fetcher.py:241-255 | False iff a required field is missing or falsy. A priority outside "1".."5" only warns. |
| IncidentFetcher.ProcessIncidentsToSqs | incident_fetcher.py:177-221 | The count is the number of queued incidents, at most the number of incidents. |
| IncidentFetcher.QueuedCountBounds | incident_fetcher.py:180-221 | The count is at most n, and equals n iff every incident has a group, is valid and was sent. |
| IncidentFetcher.NoGroupNeverQueued | incident_fetcher.py:184-188 | An incident with no group is never queued. |
| ServiceNowClient.GroupConditions | servicenow_client.py:77-81 | There is one "assignment_group.name=g" condition per group, in input order. |
| ServiceNowClient.BuildIncidentQuery | servicenow_client.py:73-96 | The query is the group clause in parentheses, then the state exclusion, then the optional time suffix. |
| ServiceNowClient.QueryShape | servicenow_client.py:84-93 | The state exclusion always follows the group clause. The "^opened_at>=" suffix is present iff a last-check time is given. |
| ServiceNowClient.GroupClauseMentionsEveryGroup | servicenow_client.py:77-81 | Every group's condition occurs in the joined clause. |
| ServiceNowClient.JoinContainsPart | servicenow_client.py:81 | Every part occurs in a join. |
| ServiceNowClient.ContainsExtend | servicenow_client.py:93 | Appending text keeps every occurrence. |
| ServiceNowClient.GetNewIncidents | servicenow_client.py:51-71 | No groups gives [] with no request. Otherwise there is exactly one request: a GET of /api/now/table/incident whose query is the parenthesised group clause, then the state exclusion, then the time clause. |
| ServiceNowClient.GetGroupMembers | servicenow_client.py:98-125 | A missing group gives [] after one request. An error propagates. Otherwise the group's members are requested. |
| ServiceNowClient.GetUserByUsername | servicenow_client.py:172-182 | One request by user name. The result is the first match or None, and an error propagates. |
| Sorting.SortAscCorrect | weight_calculator.py:98 | The sort is sorted, a permutation, and of equal length. |
| Sorting.SortAscStable | processor.py:163 | The sort is stable: for every key, the elements with that key keep their order. |
| Sorting.SortAscHead | processor.py:163-164 | The head of the sort is the earliest element with the least key. |

## Left out

- HTTP, database, queue, parameter-store and secret calls: each is replaced by the value it returns (an oracle parameter). This covers `_make_request`, the queue send/receive/delete helpers in `utils.py`, `get_last_check_time`/`update_last_check_time`, `get_secret` and `health_check_components`. Status-code plumbing in the lambda entry points is left out too.
- `servicenow_client.py` `assign_incident` and `get_member_incidents` are oracle functions of the id; only their results enter the model.
- database.py (session plumbing), poller.py (an I/O handler), demo.py (printing) and models.py's ORM mapping are not part of this model. models.py serves only as the shape of the roster record.
- Clock reads (`datetime.now`, `datetime.utcnow`) are inputs. In particular, `datetime.now` is read twice in `_calculate_availability_score` and once more for the availability gate at assignment_processor.py:281 (`IsMemberCurrentlyAvailable`). The model uses one instant for all three.
- Date and time parsing is given as an `Option` result: `time.fromisoformat`, `datetime.fromisoformat`, `strptime`, and the `strftime('%a')` weekday. An incident's age in hours is given directly, with a missing or unparseable timestamp meaning age 0.
- The random jitter of `processor.py` is a parameter in [0, 0.01], one per candidate position.
- Floating point: all formulas are exact rationals, so rounding and float comparison ties are not modelled.
- `json.dumps`, `json.loads` and the `:.4f` formatting are not modelled. The reason keeps its phrase list, and the number text is a parameter. An unparseable queue message is `None`, and so is the `parse_sqs_message` failure.
- AssignmentProcessor.OutcomesOf: `None` also stands for a body that parses to a falsy value (`{}`, `null`, `[]`, `0`, `""`). The source counts such a body as "Invalid message format", and the model's `Some` message with every field absent is not that case. A truthy body that is not an object is not modelled. In the source it raises AttributeError at assignment_processor.py:136, outside that function's `try`, after `messages_processed` was already incremented.
- Roster records: `experienceLevel` is an `int`, so a NULL `experience_level` (the column at models.py:18 is nullable) is not representable. In the source such a member raises TypeError in the role score, and the `except Exception` of `calculate_member_weights` skips it.
- Processor.FetchMemberRows: pymysql returns TIME columns as `timedelta` values and VARCHAR columns as `str`. Python cannot order either against a `time`, so processor.py:98 as written raises TypeError on every row whose day matches and whose bounds are both present. The handler's `except` then logs the record as failed. FetchMemberRows, RowOnShift and the handler model use the intended time-of-day comparison instead; the as-written behaviour is ShiftTestAsWritten/FilterAsWritten (see Findings). `shift_days` is text; a MySQL SET value is not modelled.
- Utils.FilterAvailableMembers: `isActive` is `None` only for a missing `is_active` key, which is kept. A key present with a null value is falsy in the source and drops the member (utils.py:150); the model cannot represent that input.
- AssignmentProcessor.AfterRanking: a `Failure` of the assign oracle stands for the ServiceNowError that `assign_incident_to_member` turns into False (assignment_processor.py:366-372). Any other exception from `assign_incident` is not modelled; an example is the KeyError on `incidents[0]['sys_id']` at servicenow_client.py:155, which would reach the `except Exception` at assignment_processor.py:238.
- Processor.Finish: the handler model inserts the corrected history row (HistoryRow), not the row the INSERT at processor.py:188-189 writes (HistoryRowAsWritten, see Findings). HistoryAfterAssign and FinishHistory therefore state the assignee column of the corrected row.
- Processor.GroupMemberIds: the result is a set, because the order of `list(set(...))` is not part of Python's contract. The database rows therefore come in table order, filtered by the WHERE clause.
- Processor.LambdaHandler: an empty post-check result (`{}`, the incident gone) reads as "not assigned" and lets the assign proceed, as the code's `.get` does. The race between concurrent workers is not modelled; only the sequential check-then-assign order is.
- `MAX_CANDIDATES` is a parameter; reading it from the environment is not modelled.
- `list.sort` is modelled as a pure stable insertion sort on values, not as an in-place sort.
- Logging calls are left out, except where a logging failure changes the outcome. Those failures are the start-of-processing log, the handler logs and the decision log of `process_incident_assignment`.
- ServiceNow member lists are modelled as records with a user sub-record (user_name, sys_id), not as arbitrary dictionaries.
- Message fields (`JsonField`) are absent, null or text. A number, boolean or object value is not representable; for instance `"priority": 1`, which validate_incident_data accepts as truthy.
- WeightCalculator.BaseMultiplier: the role is upper-cased over ASCII only. Python's `str.upper` also applies Unicode case mappings such as 'ı' to 'I' and 'ß' to "SS", so a role such as "traınee" (dotless i) gets 0.8 in the source and 1.0 in the model.
- RoleScoreIgnoresCase (WeightCalculator): states insensitivity to ASCII case only, for the reason on the BaseMultiplier line.

## Findings

| source | as written | input that shows it | evidently intended | confidence | as-written member | corrected member |
|---|---|---|---|---|---|---|
| processor.py:188-189 | The INSERT lists columns (incident_sys_id, incident_number, assigned_to_member_sys_id, assignment_timestamp, …) but VALUES (%s,%s,NOW(),%s,…). NOW() is bound to assigned_to_member_sys_id and the member id to assignment_timestamp, a column assumed to be DATETIME: its DDL is not part of the source, but the `DATE_SUB` comparison at processor.py:171 treats it as a date-time. Under a strict sql_mode MySQL rejects the INSERT as an incorrect datetime value: the `except` at processor.py:245 logs the record as failed after the assign at processor.py:240 has gone through, and no history row exists (in the handler model, the outcome `Failed(historyError)` with the assign call made, HistoryRejectedAfterAssign). Under a non-strict mode the row is stored with a zero date and NOW() as the assignee. | Any assignment: record_assignment_history(i, n, "u1", s) binds NOW() to the assignee column. Either no row is stored, or the stored row's assignee is not "u1". The recent-assignment count at processor.py:166-175 looks up assigned_to_member_sys_id = "u1", so it never counts the assignment. | VALUES (%s,%s,%s,NOW(),%s,%s,%s): the member id under assigned_to_member_sys_id and NOW() under assignment_timestamp. | not executed | Processor.HistoryRowAsWritten, Processor.AsWrittenHistoryIsNeverCounted | Processor.HistoryRow |
| processor.py:96-98 | The shift bounds from the driver (`timedelta` for TIME, `str` for VARCHAR) are compared with the incident's `time` by `start <= incident_time <= end`. | A row with shift_days "Mon,Tue" and bounds 09:00 and 17:00, for an incident on Monday at noon: the comparison raises TypeError, the handler logs the record as failed, and nobody is assigned. | Convert the bounds to times of day before comparing, so that the row is kept when the time lies in the (possibly overnight) window. | not executed | Processor.ShiftTestAsWritten, Processor.FilterAsWritten, Processor.FilterAsWrittenKeepsNothing, Processor.ShiftComparisonExample | Processor.RowOnShift |
