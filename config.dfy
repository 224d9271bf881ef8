/** Settings of the system and the default scoring tables (config.py). */
module Config {
  import opened Sequences

  /** The environment-derived settings that validate_config inspects, plus the three factor
      weights. An unset variable reads as its default: "" for the required ones except
      SERVICENOW_INSTANCE, whose default "your-instance.service-now.com" is never missing. */
  datatype Settings = Settings(
    servicenowInstance: string,
    servicenowUsername: string,
    servicenowPassword: string,
    sqsQueueUrl: string,
    dbHost: string,
    dbUser: string,
    dbPassword: string,
    assignmentGroups: seq<string>,
    workloadWeight: real,
    roleWeight: real,
    availabilityWeight: real)

  const DEFAULT_WORKLOAD_WEIGHT: real := 0.4
  const DEFAULT_ROLE_WEIGHT: real := 0.3
  const DEFAULT_AVAILABILITY_WEIGHT: real := 0.3

  /** Priority of an incident to its weight in the workload sum. */
  const PRIORITY_WEIGHTS: map<string, real> :=
    map["1" := 5.0, "2" := 3.0, "3" := 2.0, "4" := 1.0, "5" := 0.5]

  /** Role tier to its base multiplier in the role score. */
  const ROLE_MULTIPLIERS: map<string, real> :=
    map["L3" := 1.5, "L2" := 1.2, "L1" := 1.0, "TRAINEE" := 0.8]

  /** The default priority weights are positive and strictly decrease from "1" to "5". */
  lemma PriorityWeightsOrdered()
    ensures PRIORITY_WEIGHTS.Keys == {"1", "2", "3", "4", "5"}
    ensures forall p :: p in PRIORITY_WEIGHTS ==> PRIORITY_WEIGHTS[p] > 0.0
    ensures PRIORITY_WEIGHTS["1"] > PRIORITY_WEIGHTS["2"] > PRIORITY_WEIGHTS["3"]
            > PRIORITY_WEIGHTS["4"] > PRIORITY_WEIGHTS["5"]
  {
  }

  /** Seniority order of the default role multipliers, and the default factor weights. */
  lemma RoleMultipliersOrdered()
    ensures ROLE_MULTIPLIERS["L3"] > ROLE_MULTIPLIERS["L2"] > ROLE_MULTIPLIERS["L1"]
            > ROLE_MULTIPLIERS["TRAINEE"] > 0.0
    ensures DEFAULT_WORKLOAD_WEIGHT == 0.4 && DEFAULT_ROLE_WEIGHT == 0.3
            && DEFAULT_AVAILABILITY_WEIGHT == 0.3
  {
  }

  /** The names of the required settings, in the order validate_config checks them. */
  const REQUIRED_NAMES: seq<string> :=
    ["SERVICENOW_INSTANCE", "SERVICENOW_USERNAME", "SERVICENOW_PASSWORD", "SQS_QUEUE_URL",
     "DB_HOST", "DB_USER", "DB_PASSWORD"]

  /** The required settings, by name, in the order validate_config checks them: each of the
      seven distinct names is paired with the value of its own setting. */
  function RequiredParams(s: Settings): (ps: seq<(string, string)>)
    ensures |ps| == |REQUIRED_NAMES| == 7
    ensures forall i :: 0 <= i < |ps| ==> ps[i].0 == REQUIRED_NAMES[i]
    ensures forall i, j :: 0 <= i < j < |ps| ==> ps[i].0 != ps[j].0
    ensures [ps[0].1, ps[1].1, ps[2].1, ps[3].1, ps[4].1, ps[5].1, ps[6].1]
            == [s.servicenowInstance, s.servicenowUsername, s.servicenowPassword, s.sqsQueueUrl,
                s.dbHost, s.dbUser, s.dbPassword]
  {
    [("SERVICENOW_INSTANCE", s.servicenowInstance),
     ("SERVICENOW_USERNAME", s.servicenowUsername),
     ("SERVICENOW_PASSWORD", s.servicenowPassword),
     ("SQS_QUEUE_URL", s.sqsQueueUrl),
     ("DB_HOST", s.dbHost),
     ("DB_USER", s.dbUser),
     ("DB_PASSWORD", s.dbPassword)]
  }

  const NO_GROUPS_MESSAGE: string := "No assignment groups configured"

  function MissingMessage(name: string): string {
    "Missing required configuration: " + name
  }

  /** A setting whose value is falsy (the empty string). */
  predicate IsMissing(param: (string, string)) {
    param.1 == ""
  }

  /** The messages for the missing settings among params, in order. */
  function MissingErrors(params: seq<(string, string)>): seq<string> {
    if params == [] then []
    else MissingErrors(params[..|params| - 1])
         + (if IsMissing(params[|params| - 1]) then [MissingMessage(params[|params| - 1].0)] else [])
  }

  /** The whole list validate_config returns. */
  function ConfigErrors(s: Settings): seq<string> {
    MissingErrors(RequiredParams(s)) + (if |s.assignmentGroups| == 0 then [NO_GROUPS_MESSAGE] else [])
  }

  method ValidateConfig(s: Settings) returns (errors: seq<string>)
    ensures errors == ConfigErrors(s)
    ensures errors == [] <==> (forall i :: 0 <= i < 7 ==> RequiredParams(s)[i].1 != "")
                              && |s.assignmentGroups| > 0
  {
    errors := [];
    var required := RequiredParams(s);
    var i := 0;
    while i < |required|
      invariant 0 <= i <= |required|
      invariant errors == MissingErrors(required[..i])
    {
      assert required[..i + 1][..i] == required[..i];
      if required[i].1 == "" {
        errors := errors + [MissingMessage(required[i].0)];
      }
      i := i + 1;
    }
    assert required[..i] == required;
    if |s.assignmentGroups| == 0 {
      errors := errors + [NO_GROUPS_MESSAGE];
    }
    ConfigErrorsEmptyIff(s);
  }

  /** One message per missing setting, naming it, in the listed order: the message list is the
      list of missing settings, renamed. */
  lemma {:induction false} MissingErrorsFollowParams(params: seq<(string, string)>)
    ensures |MissingErrors(params)| == |Filter(params, IsMissing)|
    ensures forall k :: 0 <= k < |MissingErrors(params)| ==>
              MissingErrors(params)[k] == MissingMessage(Filter(params, IsMissing)[k].0)
  {
    if params != [] {
      MissingErrorsFollowParams(params[..|params| - 1]);
    }
  }

  lemma MissingMessageIsNotGroupsMessage(name: string)
    ensures MissingMessage(name) != NO_GROUPS_MESSAGE
  {
    assert MissingMessage(name)[0] == 'M';
  }

  /** The groups message comes last, and exactly when no group is configured. */
  lemma NoGroupsMessageLast(s: Settings)
    ensures |s.assignmentGroups| == 0 <==>
              (|ConfigErrors(s)| > 0 && ConfigErrors(s)[|ConfigErrors(s)| - 1] == NO_GROUPS_MESSAGE)
  {
    var missing := MissingErrors(RequiredParams(s));
    MissingErrorsFollowParams(RequiredParams(s));
    if |s.assignmentGroups| > 0 && |missing| > 0 {
      MissingMessageIsNotGroupsMessage(Filter(RequiredParams(s), IsMissing)[|missing| - 1].0);
    }
  }

  /** The list is empty exactly when all seven settings and the group list are non-empty. */
  lemma ConfigErrorsEmptyIff(s: Settings)
    ensures ConfigErrors(s) == [] <==>
              (forall i :: 0 <= i < 7 ==> RequiredParams(s)[i].1 != "") && |s.assignmentGroups| > 0
  {
    var ps := RequiredParams(s);
    MissingErrorsFollowParams(ps);
    if forall i :: 0 <= i < 7 ==> ps[i].1 != "" {
      FilterKeepsNone(ps);
    } else {
      var i :| 0 <= i < 7 && ps[i].1 == "";
      FilterMembership(ps, IsMissing, ps[i]);
    }
  }

  lemma {:induction false} FilterKeepsNone(ps: seq<(string, string)>)
    requires forall i :: 0 <= i < |ps| ==> ps[i].1 != ""
    ensures Filter(ps, IsMissing) == []
  {
    if ps != [] {
      FilterKeepsNone(ps[..|ps| - 1]);
    }
  }
}
