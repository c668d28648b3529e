/**
 * Classification of alarm queries against one `describeAlarms` response
 * (`getAlarmStates`).  The call itself is an input: `None` stands for a call
 * that failed, which the source treats as an empty response.
 */
module Alarms {
  import opened Wrappers

  /** One alarm to check, with the start of the bake it guards. */
  datatype AlarmQuery = AlarmQuery(alarmName: string, startTime: int, treatMissingAlarm: string)

  /** An alarm as CloudWatch describes it; the timestamp is in milliseconds. */
  datatype DescribedAlarm = DescribedAlarm(
    alarmName: string,
    stateValue: Option<string>,
    stateUpdatedTimestamp: Option<int>)

  datatype DescribeOutput = DescribeOutput(
    metricAlarms: Option<seq<DescribedAlarm>>,
    compositeAlarms: Option<seq<DescribedAlarm>>)

  datatype AlarmState = StateMissing | StateInAlarm | StateOk

  datatype AlarmResult = AlarmResult(alarm: AlarmQuery, state: AlarmState)

  /** Metric alarms, then composite alarms; a failed call contributes none. */
  function Described(response: Option<DescribeOutput>): (described: seq<DescribedAlarm>)
    ensures response.None? ==> described == []
  {
    match response
    case None => []
    case Some(out) => out.metricAlarms.GetOr([]) + out.compositeAlarms.GetOr([])
  }

  /** `i` is the last position of an alarm called `name`. */
  predicate LastNamed(described: seq<DescribedAlarm>, i: int, name: string) {
    0 <= i < |described| && described[i].alarmName == name
    && forall j :: i < j < |described| ==> described[j].alarmName != name
  }

  /** The entry a name-keyed lookup built front to back ends up holding: the last one. */
  function FindLast(described: seq<DescribedAlarm>, name: string): (found: Option<DescribedAlarm>)
    ensures found.None? <==> forall i :: 0 <= i < |described| ==> described[i].alarmName != name
    ensures found.Some? ==> exists i :: LastNamed(described, i, name) && described[i] == found.value
  {
    if |described| == 0 then None
    else
      var n := |described| - 1;
      if described[n].alarmName == name then
        assert LastNamed(described, n, name);
        Some(described[n])
      else
        var found := FindLast(described[..n], name);
        assert forall i :: 0 <= i < n ==> described[..n][i] == described[i];
        assert found.Some? ==> exists i :: LastNamed(described, i, name) && described[i] == found.value by {
          if found.Some? {
            var i :| LastNamed(described[..n], i, name) && described[..n][i] == found.value;
            assert LastNamed(described, i, name);
          }
        }
        found
  }

  /** The state of one query given what the lookup holds for its name. */
  function ClassifyFound(q: AlarmQuery, found: Option<DescribedAlarm>): AlarmState {
    match found
    case None => StateMissing
    case Some(d) =>
      if d.stateValue != Some("OK") then StateInAlarm
      else if d.stateUpdatedTimestamp.Some? && d.stateUpdatedTimestamp.value > q.startTime then StateInAlarm
      else StateOk
  }

  /**
   * An alarm is missing when nothing of its name is described; otherwise,
   * judged by the last description of that name, it is in alarm when its
   * state is not OK or when it changed state after the bake started.
   */
  function Classify(q: AlarmQuery, described: seq<DescribedAlarm>): (state: AlarmState)
    ensures state == StateMissing <==> forall i :: 0 <= i < |described| ==> described[i].alarmName != q.alarmName
    ensures state == StateInAlarm <==> exists i :: LastNamed(described, i, q.alarmName) && RecentlyInAlarm(described[i], q)
    ensures state == StateOk <==> exists i :: LastNamed(described, i, q.alarmName) && !RecentlyInAlarm(described[i], q)
  {
    LastNamedUnique(described, q.alarmName);
    ClassifyFound(q, FindLast(described, q.alarmName))
  }

  lemma LastNamedUnique(described: seq<DescribedAlarm>, name: string)
    ensures forall i, j :: LastNamed(described, i, name) && LastNamed(described, j, name) ==> i == j
  {
    forall i, j | LastNamed(described, i, name) && LastNamed(described, j, name) ensures i == j {
      assert !(i < j) && !(j < i);
    }
  }

  predicate RecentlyInAlarm(d: DescribedAlarm, q: AlarmQuery) {
    d.stateValue != Some("OK")
    || (d.stateUpdatedTimestamp.Some? && d.stateUpdatedTimestamp.value > q.startTime)
  }

  /**
   * `getAlarmStates`: builds the name-keyed lookup in place, then classifies
   * every query, in order.
   */
  method GetAlarmStates(alarms: seq<AlarmQuery>, response: Option<DescribeOutput>)
    returns (results: seq<AlarmResult>)
    ensures |results| == |alarms|
    ensures forall i :: 0 <= i < |alarms| ==>
      results[i].alarm == alarms[i] && results[i].state == Classify(alarms[i], Described(response))
  {
    var described := Described(response);
    var lookup: map<string, DescribedAlarm> := map[];
    for i := 0 to |described|
      invariant forall name :: name in lookup <==> FindLast(described[..i], name).Some?
      invariant forall name :: name in lookup ==> lookup[name] == FindLast(described[..i], name).value
    {
      assert described[..i + 1][..i] == described[..i];
      lookup := lookup[described[i].alarmName := described[i]];
    }
    assert described[..|described|] == described;
    results := seq(|alarms|, i requires 0 <= i < |alarms| =>
      AlarmResult(alarms[i], ClassifyFound(alarms[i],
        if alarms[i].alarmName in lookup then Some(lookup[alarms[i].alarmName]) else None)));
  }

  /** A failed call leaves every alarm missing. */
  lemma FailedCallMeansMissing(q: AlarmQuery)
    ensures Classify(q, Described(None)) == StateMissing
  {
  }

  /** A composite alarm shadows a metric alarm of the same name. */
  lemma {:induction false} CompositeShadowsMetric(q: AlarmQuery, metric: seq<DescribedAlarm>, composite: DescribedAlarm)
    requires composite.alarmName == q.alarmName
    ensures Classify(q, Described(Some(DescribeOutput(Some(metric), Some([composite])))))
         == ClassifyFound(q, Some(composite))
  {
    var described := metric + [composite];
    assert Described(Some(DescribeOutput(Some(metric), Some([composite])))) == described;
    assert FindLast(described, q.alarmName) == Some(composite);
  }
}
