/**
  The pure parts of the CloudWatch alarm-status lookup: the constants, the uniform
  `AlarmStatus` record, the tag search query, alarm-name extraction from an alarm ARN, and
  the normalisation of composite and metric alarms into `AlarmStatus` records.
 */
module CloudWatch {
  import opened Wrappers
  import Strings
  import Arn

  const ResourceQueryType := "TAG_FILTERS_1_0"
  const CloudwatchResourceType := "AWS::CloudWatch::Alarm"
  const CompositeAlarmType := "Composite"
  const MetricAlarmType := "Metric"

  newtype int64 = x: int | -0x8000_0000_0000_0000 <= x < 0x8000_0000_0000_0000

  /** The status of one alarm, whichever kind it is. */
  datatype AlarmStatus = AlarmStatus(
    arn: string,
    name: string,
    reason: string,
    status: string,
    alarmType: string,
    updatedTimes: int64)

  /** Why a lookup failed; the text of Go's error messages is not modelled. */
  datatype Error =
    | QueryConstruction
    | ArnParse(alarmArn: string, cause: Arn.ParseError)
    | MalformedResource(resource: string)
    | SearchFailed
    | DescribeFailed

  // ---------------------------------------------------------------------------
  // Search query

  /** One tag filter of the query: a key and the values it may take. */
  datatype TagFilter = TagFilter(key: string, values: seq<string>)

  /** The structure that is encoded as the resource-group query. */
  datatype SearchQuery = SearchQuery(resourceTypeFilters: seq<string>, tagFilters: seq<TagFilter>)

  predicate Distinct<T(==)>(s: seq<T>)
  {
    forall i, j :: 0 <= i < j < |s| ==> s[i] != s[j]
  }

  /**
    `order` is an order in which a map iteration may visit the keys of `tags`:
    each key exactly once. Go leaves that order unspecified.
   */
  predicate EnumeratesKeys(order: seq<string>, tags: map<string, string>)
  {
    && Distinct(order)
    && (forall k :: k in order ==> k in tags)
    && (forall k :: k in tags ==> k in order)
  }

  /**
    The query for all CloudWatch alarms carrying `tags`, with the tag filters in the
    map-iteration order `order`: one resource-type filter, and exactly one filter per
    tag, holding that tag's value and nothing else.
   */
  function SearchResourceQuery(tags: map<string, string>, order: seq<string>): (q: SearchQuery)
    requires EnumeratesKeys(order, tags)
    ensures q.resourceTypeFilters == [CloudwatchResourceType]
    ensures |q.tagFilters| == |tags|
    ensures forall f :: f in q.tagFilters ==> f.key in tags && f.values == [tags[f.key]]
    ensures forall k :: k in tags ==> TagFilter(k, [tags[k]]) in q.tagFilters
  {
    var filters := seq(|order|, i requires 0 <= i < |order| => TagFilter(order[i], [tags[order[i]]]));
    DistinctCardinality(order);
    assert (set k | k in order) == tags.Keys;
    assert forall k :: k in tags ==> filters[IndexIn(order, k)] == TagFilter(k, [tags[k]]);
    SearchQuery([CloudwatchResourceType], filters)
  }

  function IndexIn<T(==)>(s: seq<T>, x: T): (i: nat)
    requires x in s
    ensures i < |s| && s[i] == x
  {
    if s[0] == x then 0 else 1 + IndexIn(s[1..], x)
  }

  lemma {:induction false} DistinctCardinality<T>(s: seq<T>)
    requires Distinct(s)
    ensures |set x | x in s| == |s|
  {
    if |s| > 0 {
      DistinctCardinality(s[1..]);
      assert (set x | x in s) == (set x | x in s[1..]) + {s[0]};
      assert s[0] !in s[1..];
    }
  }

  lemma {:induction false} DistinctMultiplicity<T>(s: seq<T>, x: T)
    requires Distinct(s)
    ensures multiset(s)[x] == if x in s then 1 else 0
  {
    if |s| > 0 {
      assert s == [s[0]] + s[1..];
      DistinctMultiplicity(s[1..], x);
      assert s[0] !in s[1..];
    }
  }

  /** No two tag filters of the query are the same: each names a different key. */
  lemma FiltersDistinct(tags: map<string, string>, order: seq<string>)
    requires EnumeratesKeys(order, tags)
    ensures Distinct(SearchResourceQuery(tags, order).tagFilters)
  {
    var filters := SearchResourceQuery(tags, order).tagFilters;
    assert forall i :: 0 <= i < |filters| ==> filters[i].key == order[i];
  }

  /** The tag filters do not depend on the map-iteration order, as a multiset. */
  lemma QueryIndependentOfOrder(tags: map<string, string>, order1: seq<string>, order2: seq<string>)
    requires EnumeratesKeys(order1, tags) && EnumeratesKeys(order2, tags)
    ensures SearchResourceQuery(tags, order1).resourceTypeFilters == SearchResourceQuery(tags, order2).resourceTypeFilters
    ensures multiset(SearchResourceQuery(tags, order1).tagFilters) == multiset(SearchResourceQuery(tags, order2).tagFilters)
  {
    var f1, f2 := SearchResourceQuery(tags, order1).tagFilters, SearchResourceQuery(tags, order2).tagFilters;
    FiltersDistinct(tags, order1);
    FiltersDistinct(tags, order2);
    forall f ensures multiset(f1)[f] == multiset(f2)[f] {
      DistinctMultiplicity(f1, f);
      DistinctMultiplicity(f2, f);
    }
  }

  // ---------------------------------------------------------------------------
  // Alarm names

  /**
    The alarm name in an alarm ARN: the ARN's resource part must hold exactly one colon
    (`alarm:<name>`), and the name is what follows it. A text that is not an ARN, or a
    resource part with no colon or several, is an error.
   */
  function GetAlarmName(alarmArn: string): (r: Result<string, Error>)
    ensures r.Ok? <==> Arn.Parse(alarmArn).Ok? && Strings.Count(Arn.Parse(alarmArn).value.resource, Arn.Delimiter) == 1
    ensures Arn.Parse(alarmArn).Err? ==> r == Err(ArnParse(alarmArn, Arn.Parse(alarmArn).error))
    ensures Arn.Parse(alarmArn).Ok? && r.Err? ==> r.error == MalformedResource(Arn.Parse(alarmArn).value.resource)
    ensures r.Ok? ==>
      var resource := Arn.Parse(alarmArn).value.resource;
      && Arn.Delimiter !in r.value
      && |r.value| < |resource|
      && resource == resource[..|resource| - |r.value| - 1] + [Arn.Delimiter] + r.value
  {
    match Arn.Parse(alarmArn)
    case Err(e) => Err(ArnParse(alarmArn, e))
    case Ok(a) =>
      var alarmNameList := Strings.Split(a.resource, Arn.Delimiter);
      if |alarmNameList| != 2 then Err(MalformedResource(a.resource))
      else
        assert alarmNameList == [alarmNameList[0], alarmNameList[1]];
        Strings.JoinPair(alarmNameList[0], alarmNameList[1], Arn.Delimiter);
        Ok(alarmNameList[1])
  }

  /** The name built into a well-formed alarm ARN is the name extracted from it. */
  lemma GetAlarmNameOfFormatted(partition: string, service: string, region: string, accountId: string,
                                resourceType: string, name: string)
    requires Arn.WellFormed(Arn.ARN(partition, service, region, accountId, ""))
    requires Arn.Delimiter !in resourceType && Arn.Delimiter !in name
    ensures GetAlarmName(Arn.Format(Arn.ARN(partition, service, region, accountId, resourceType + [Arn.Delimiter] + name)))
            == Ok(name)
  {
    var a := Arn.ARN(partition, service, region, accountId, resourceType + [Arn.Delimiter] + name);
    Arn.ParseFormat(a);
    Strings.SplitJoin([resourceType, name], Arn.Delimiter);
  }

  /**
    The example in the documentation of `getAlarmName`, with the ARN written as the
    concatenation of its sections, each with the colon that ends it.
   */
  lemma GetAlarmNameExample(alarmArn: string)
    requires alarmArn == "arn:" + "aws:" + "cloudwatch:" + "us-west-2:" + "1234567890:"
                         + "alarm:" + "SDc-ReadCapacityUnitsLimit-BasicAlarm"
    ensures GetAlarmName(alarmArn) == Ok("SDc-ReadCapacityUnitsLimit-BasicAlarm")
  {
    var name := "SDc-ReadCapacityUnitsLimit-BasicAlarm";
    ExampleNameHasNoColon(name);
    var a := Arn.ARN("aws", "cloudwatch", "us-west-2", "1234567890", "alarm" + [Arn.Delimiter] + name);
    assert Arn.WellFormed(a);
    GetAlarmNameOfFormatted(a.partition, a.service, a.region, a.accountId, "alarm", name);
    Arn.FormatSpelledOut(a);
    ExampleSectionsEndInColon();
    RegroupSections("arn", a.partition, a.service, a.region, a.accountId, "alarm", name, Arn.Delimiter);
  }

  lemma ExampleNameHasNoColon(name: string)
    requires name == "SDc-ReadCapacityUnitsLimit-BasicAlarm"
    ensures Arn.Delimiter !in name
  {
  }

  lemma ExampleSectionsEndInColon()
    ensures "arn" + [Arn.Delimiter] == "arn:"
    ensures "aws" + [Arn.Delimiter] == "aws:"
    ensures "cloudwatch" + [Arn.Delimiter] == "cloudwatch:"
    ensures "us-west-2" + [Arn.Delimiter] == "us-west-2:"
    ensures "1234567890" + [Arn.Delimiter] == "1234567890:"
    ensures "alarm" + [Arn.Delimiter] == "alarm:"
  {
  }

  lemma RegroupSections(s0: string, s1: string, s2: string, s3: string, s4: string, s5: string, name: string, d: char)
    ensures s0 + [d] + s1 + [d] + s2 + [d] + s3 + [d] + s4 + [d] + (s5 + [d] + name)
            == (s0 + [d]) + (s1 + [d]) + (s2 + [d]) + (s3 + [d]) + (s4 + [d]) + (s5 + [d]) + name
  {
  }

  // ---------------------------------------------------------------------------
  // Normalisation

  /** The fields of a composite or metric alarm that the lookup reads; nil is `None`. */
  datatype RawAlarm = RawAlarm(
    alarmArn: Option<string>,
    alarmName: Option<string>,
    stateReason: Option<string>,
    stateValue: Option<string>,
    stateUpdatedTimestamp: int64)

  /** A nil string reads as the empty string. */
  function StringValue(s: Option<string>): string
  {
    if s.Some? then s.value else ""
  }

  /** The status record of one alarm from the list of kind `alarmType`. */
  function Normalize(alarm: RawAlarm, alarmType: string): AlarmStatus
  {
    AlarmStatus(
      StringValue(alarm.alarmArn),
      StringValue(alarm.alarmName),
      StringValue(alarm.stateReason),
      StringValue(alarm.stateValue),
      alarmType,
      alarm.stateUpdatedTimestamp)
  }

  /** The alarms, in order, each normalised with the kind `alarmType`. */
  function AlarmsStatus(alarms: seq<RawAlarm>, alarmType: string): (statuses: seq<AlarmStatus>)
    ensures |statuses| == |alarms|
    ensures forall i :: 0 <= i < |alarms| ==> statuses[i] == Normalize(alarms[i], alarmType)
  {
    if |alarms| == 0 then []
    else AlarmsStatus(alarms[..|alarms| - 1], alarmType) + [Normalize(alarms[|alarms| - 1], alarmType)]
  }

  /**
    One record per composite alarm, in order, copying ARN, name, reason and state
    (nil as `""`) and the update time, with the type "Composite".
   */
  function CompositeAlarmsStatus(alarms: seq<RawAlarm>): (statuses: seq<AlarmStatus>)
    ensures |statuses| == |alarms|
  {
    AlarmsStatus(alarms, CompositeAlarmType)
  }

  /**
    One record per metric alarm, in order, copying ARN, name, reason and state
    (nil as `""`) and the update time, with the type "Metric".
   */
  function MetricAlarmsStatus(alarms: seq<RawAlarm>): (statuses: seq<AlarmStatus>)
    ensures |statuses| == |alarms|
  {
    AlarmsStatus(alarms, MetricAlarmType)
  }

  /** Each composite record copies its alarm's fields, nil strings as `""`, and is typed "Composite". */
  lemma CompositeRecords(alarms: seq<RawAlarm>)
    ensures |CompositeAlarmsStatus(alarms)| == |alarms|
    ensures forall i :: 0 <= i < |alarms| ==>
      && CompositeAlarmsStatus(alarms)[i].arn == StringValue(alarms[i].alarmArn)
      && CompositeAlarmsStatus(alarms)[i].name == StringValue(alarms[i].alarmName)
      && CompositeAlarmsStatus(alarms)[i].reason == StringValue(alarms[i].stateReason)
      && CompositeAlarmsStatus(alarms)[i].status == StringValue(alarms[i].stateValue)
      && CompositeAlarmsStatus(alarms)[i].alarmType == CompositeAlarmType
      && CompositeAlarmsStatus(alarms)[i].updatedTimes == alarms[i].stateUpdatedTimestamp
  {
  }

  /** Each metric record copies its alarm's fields, nil strings as `""`, and is typed "Metric". */
  lemma MetricRecords(alarms: seq<RawAlarm>)
    ensures |MetricAlarmsStatus(alarms)| == |alarms|
    ensures forall i :: 0 <= i < |alarms| ==>
      && MetricAlarmsStatus(alarms)[i].arn == StringValue(alarms[i].alarmArn)
      && MetricAlarmsStatus(alarms)[i].name == StringValue(alarms[i].alarmName)
      && MetricAlarmsStatus(alarms)[i].reason == StringValue(alarms[i].stateReason)
      && MetricAlarmsStatus(alarms)[i].status == StringValue(alarms[i].stateValue)
      && MetricAlarmsStatus(alarms)[i].alarmType == MetricAlarmType
      && MetricAlarmsStatus(alarms)[i].updatedTimes == alarms[i].stateUpdatedTimestamp
  {
  }

  /** The records of one type, in order. */
  function OfType(statuses: seq<AlarmStatus>, alarmType: string): seq<AlarmStatus>
  {
    if |statuses| == 0 then []
    else OfType(statuses[..|statuses| - 1], alarmType)
         + (if statuses[|statuses| - 1].alarmType == alarmType then [statuses[|statuses| - 1]] else [])
  }

  lemma {:induction false} OfTypeAppend(a: seq<AlarmStatus>, b: seq<AlarmStatus>, alarmType: string)
    ensures OfType(a + b, alarmType) == OfType(a, alarmType) + OfType(b, alarmType)
  {
    if |b| == 0 {
      assert a + b == a;
    } else {
      assert (a + b)[..|a + b| - 1] == a + b[..|b| - 1];
      OfTypeAppend(a, b[..|b| - 1], alarmType);
    }
  }

  lemma {:induction false} OfTypeAll(statuses: seq<AlarmStatus>, alarmType: string, other: string)
    requires alarmType != other
    requires forall i :: 0 <= i < |statuses| ==> statuses[i].alarmType == alarmType
    ensures OfType(statuses, alarmType) == statuses
    ensures OfType(statuses, other) == []
  {
    if |statuses| > 0 {
      OfTypeAll(statuses[..|statuses| - 1], alarmType, other);
      assert statuses == statuses[..|statuses| - 1] + [statuses[|statuses| - 1]];
    }
  }

  /**
    Merging the two lists of one page loses nothing: the type tag alone separates the
    composite records from the metric ones again, each in its original order.
   */
  lemma TypeTagSeparatesKinds(composites: seq<RawAlarm>, metrics: seq<RawAlarm>)
    ensures OfType(CompositeAlarmsStatus(composites) + MetricAlarmsStatus(metrics), CompositeAlarmType)
            == CompositeAlarmsStatus(composites)
    ensures OfType(CompositeAlarmsStatus(composites) + MetricAlarmsStatus(metrics), MetricAlarmType)
            == MetricAlarmsStatus(metrics)
  {
    var c, m := CompositeAlarmsStatus(composites), MetricAlarmsStatus(metrics);
    OfTypeAppend(c, m, CompositeAlarmType);
    OfTypeAppend(c, m, MetricAlarmType);
    OfTypeAll(c, CompositeAlarmType, MetricAlarmType);
    OfTypeAll(m, MetricAlarmType, CompositeAlarmType);
  }

  /** The alarm whose every field is present, as its status record shows it. */
  function RawOf(status: AlarmStatus): RawAlarm
  {
    RawAlarm(Some(status.arn), Some(status.name), Some(status.reason), Some(status.status), status.updatedTimes)
  }

  /** Normalisation drops nothing but the difference between a nil string and an empty one. */
  lemma NormalizeLossless(alarm: RawAlarm, alarmType: string)
    ensures Normalize(alarm, alarmType).alarmType == alarmType
    ensures RawOf(Normalize(alarm, alarmType)) == alarm
            <==> alarm.alarmArn.Some? && alarm.alarmName.Some? && alarm.stateReason.Some? && alarm.stateValue.Some?
  {
  }
}
