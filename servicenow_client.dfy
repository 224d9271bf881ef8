/** The request-free logic of servicenow_client.py: the incident query string and the early
    returns around the table API calls, whose responses are inputs. */
module ServiceNowClient {
  import opened Wrappers
  import opened Errors
  import opened Sequences

  const GROUP_CONDITION_PREFIX: string := "assignment_group.name="
  const GROUP_SEPARATOR: string := "^OR"
  const STATE_QUERY: string := "state!=6^state!=7^state!=8"
  const TIME_PREFIX: string := "^opened_at>="

  /** The per-group conditions, in input order. */
  method GroupConditions(groups: seq<string>) returns (conditions: seq<string>)
    ensures |conditions| == |groups|
    ensures forall i :: 0 <= i < |groups| ==> conditions[i] == GROUP_CONDITION_PREFIX + groups[i]
  {
    conditions := [];
    var i := 0;
    while i < |groups|
      invariant 0 <= i <= |groups|
      invariant |conditions| == i
      invariant forall k :: 0 <= k < i ==> conditions[k] == GROUP_CONDITION_PREFIX + groups[k]
    {
      conditions := conditions + [GROUP_CONDITION_PREFIX + groups[i]];
      i := i + 1;
    }
  }

  /** The conditions as a value, for stating what the query contains. */
  function GroupConditionsOf(groups: seq<string>): seq<string> {
    seq(|groups|, i requires 0 <= i < |groups| => GROUP_CONDITION_PREFIX + groups[i])
  }

  /** The time clause, present only when a last check time is given (already formatted as
      %Y-%m-%d %H:%M:%S text). */
  function TimeQuery(lastCheckTime: Option<string>): string {
    if lastCheckTime.Some? then TIME_PREFIX + lastCheckTime.value else ""
  }

  /** _build_incident_query. */
  method BuildIncidentQuery(groups: seq<string>, lastCheckTime: Option<string>) returns (query: string)
    ensures query == "(" + Join(GroupConditionsOf(groups), GROUP_SEPARATOR) + ")^" + STATE_QUERY + TimeQuery(lastCheckTime)
  {
    var conditions := GroupConditions(groups);
    assert conditions == GroupConditionsOf(groups);
    var groupQuery := Join(conditions, GROUP_SEPARATOR);
    var timeQuery := "";
    if lastCheckTime.Some? {
      timeQuery := TIME_PREFIX + lastCheckTime.value;
    }
    query := "(" + groupQuery + ")^" + STATE_QUERY + timeQuery;
  }

  /** The query opens with the parenthesised group clause, the state exclusion follows it
      directly, and the query ends there unless a time is given, in which case the time
      clause closes it. */
  lemma QueryShape(groups: seq<string>, lastCheckTime: Option<string>)
    ensures var groupClause := "(" + Join(GroupConditionsOf(groups), GROUP_SEPARATOR) + ")";
            var q := "(" + Join(GroupConditionsOf(groups), GROUP_SEPARATOR) + ")^" + STATE_QUERY + TimeQuery(lastCheckTime);
            && groupClause <= q
            && q[|groupClause|..|groupClause| + 1 + |STATE_QUERY|] == "^" + STATE_QUERY
            && (lastCheckTime.None? ==> |q| == |groupClause| + 1 + |STATE_QUERY|)
            && (lastCheckTime.Some? ==> q[|groupClause| + 1 + |STATE_QUERY|..] == TIME_PREFIX + lastCheckTime.value)
  {
    var groupClause := "(" + Join(GroupConditionsOf(groups), GROUP_SEPARATOR) + ")";
    var q := groupClause + ("^" + STATE_QUERY) + TimeQuery(lastCheckTime);
    assert q == "(" + Join(GroupConditionsOf(groups), GROUP_SEPARATOR) + ")^" + STATE_QUERY + TimeQuery(lastCheckTime);
    assert q[..|groupClause|] == groupClause;
  }

  /** Every group's condition appears in the group clause, in input order. */
  lemma {:induction false} GroupClauseMentionsEveryGroup(groups: seq<string>, i: nat)
    requires i < |groups|
    ensures Contains(Join(GroupConditionsOf(groups), GROUP_SEPARATOR), GROUP_CONDITION_PREFIX + groups[i])
  {
    var cs := GroupConditionsOf(groups);
    JoinContainsPart(cs, GROUP_SEPARATOR, i);
  }

  /** Each part occurs in the joined text. */
  lemma {:induction false} JoinContainsPart(parts: seq<string>, sep: string, i: nat)
    requires i < |parts|
    ensures Contains(Join(parts, sep), parts[i])
  {
    if |parts| == 1 {
      assert Join(parts, sep) == parts[0];
      ContainsAt(parts[0], parts[0], 0);
    } else {
      var init := parts[..|parts| - 1];
      var last := parts[|parts| - 1];
      assert Join(parts, sep) == Join(init, sep) + sep + last;
      if i < |parts| - 1 {
        JoinContainsPart(init, sep, i);
        assert init[i] == parts[i];
        ContainsExtend(Join(init, sep), parts[i], sep + last);
        assert Join(init, sep) + (sep + last) == Join(parts, sep);
      } else {
        var j := |Join(init, sep) + sep|;
        assert Join(parts, sep)[j..j + |last|] == last;
        ContainsAt(Join(parts, sep), last, j);
      }
    }
  }

  /** A text found in a prefix is found in the whole. */
  lemma {:induction false} ContainsExtend(hay: string, needle: string, more: string)
    requires Contains(hay, needle)
    ensures Contains(hay + more, needle)
    decreases |hay|
  {
    if needle <= hay {
      assert (hay + more)[..|needle|] == hay[..|needle|];
    } else {
      ContainsExtend(hay[1..], needle, more);
      assert (hay + more)[1..] == hay[1..] + more;
    }
  }

  // ---------------------------------------------------------------------------------------
  // Early returns around the table API

  /** A call of _make_request, as the endpoint and the sysparm_query it carries. */
  datatype Request = Request(httpMethod: string, endpoint: string, query: string)

  /** response.get('result', []). */
  function ResultList<T>(result: Option<seq<T>>): seq<T> {
    if result.Some? then result.value else []
  }

  /** get_new_incidents: no groups, no request. The response of the one request is an input
      (Failure where the request raises ServiceNowError). */
  method GetNewIncidents<T>(groups: seq<string>, lastCheckTime: Option<string>,
                            response: Result<Option<seq<T>>, IncidentAssignmentError>)
    returns (r: Result<seq<T>, IncidentAssignmentError>, requests: seq<Request>)
    ensures groups == [] ==> r == Success([]) && requests == []
    ensures groups != [] ==>
              requests == [Request("GET", "/api/now/table/incident",
                                   "(" + Join(GroupConditionsOf(groups), GROUP_SEPARATOR) + ")^"
                                   + STATE_QUERY + TimeQuery(lastCheckTime))]
    ensures groups != [] ==>
              r == (if response.Success? then Success(ResultList(response.value)) else Failure(response.error))
  {
    if |groups| == 0 {
      return Success([]), [];
    }
    var query := BuildIncidentQuery(groups, lastCheckTime);
    requests := [Request("GET", "/api/now/table/incident", query)];
    if response.Failure? {
      return Failure(response.error), requests;
    }
    r := Success(ResultList(response.value));
  }

  /** A group row and a membership row of the ServiceNow tables. */
  datatype GroupRow = GroupRow(sysId: string, name: string)

  /** get_group_members: the group lookup, then the member lookup by the first group's
      sys_id; an unknown group gives [] after the first request. */
  method GetGroupMembers<M>(groupName: string,
                            groupsResponse: Result<Option<seq<GroupRow>>, IncidentAssignmentError>,
                            membersResponse: Result<Option<seq<M>>, IncidentAssignmentError>)
    returns (r: Result<seq<M>, IncidentAssignmentError>, requests: seq<Request>)
    ensures groupsResponse.Failure? ==> r == Failure(groupsResponse.error) && |requests| == 1
    ensures groupsResponse.Success? && ResultList(groupsResponse.value) == [] ==> r == Success([]) && |requests| == 1
    ensures groupsResponse.Success? && ResultList(groupsResponse.value) != [] ==>
              && |requests| == 2
              && requests[1] == Request("GET", "/api/now/table/sys_user_grmember",
                                        "group=" + ResultList(groupsResponse.value)[0].sysId)
              && r == (if membersResponse.Success? then Success(ResultList(membersResponse.value))
                       else Failure(membersResponse.error))
    ensures |requests| >= 1 && requests[0] == Request("GET", "/api/now/table/sys_user_group", "name=" + groupName)
  {
    requests := [Request("GET", "/api/now/table/sys_user_group", "name=" + groupName)];
    if groupsResponse.Failure? {
      return Failure(groupsResponse.error), requests;
    }
    var groups := ResultList(groupsResponse.value);
    if |groups| == 0 {
      return Success([]), requests;
    }
    var groupSysId := groups[0].sysId;
    requests := requests + [Request("GET", "/api/now/table/sys_user_grmember", "group=" + groupSysId)];
    if membersResponse.Failure? {
      return Failure(membersResponse.error), requests;
    }
    r := Success(ResultList(membersResponse.value));
  }

  /** get_user_by_username: the first matching user, or None. */
  method GetUserByUsername<U>(username: string, response: Result<Option<seq<U>>, IncidentAssignmentError>)
    returns (r: Result<Option<U>, IncidentAssignmentError>, requests: seq<Request>)
    ensures requests == [Request("GET", "/api/now/table/sys_user", "user_name=" + username)]
    ensures response.Failure? ==> r == Failure(response.error)
    ensures response.Success? ==>
              r.Success? && (r.value.None? <==> ResultList(response.value) == [])
              && (r.value.Some? ==> r.value.value == ResultList(response.value)[0])
  {
    requests := [Request("GET", "/api/now/table/sys_user", "user_name=" + username)];
    if response.Failure? {
      return Failure(response.error), requests;
    }
    var users := ResultList(response.value);
    r := Success(if |users| > 0 then Some(users[0]) else None);
  }
}
