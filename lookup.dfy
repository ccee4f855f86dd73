/**
  `GetAlarmsWithTags`: the alarms that carry every given tag, with their current state.
  Stage one builds the tag query. Stage two pages through the resource-groups tagging
  search and turns every alarm ARN it returns into an alarm name. Stage three pages
  through the CloudWatch describe call with all those names, and turns every composite
  and metric alarm it returns into an `AlarmStatus`. Any error ends the lookup with
  nothing but that error.
 */
module AlarmLookup {
  import opened Wrappers
  import opened Paging
  import opened CloudWatch

  /** One resource the tag search matched. */
  datatype ResourceIdentifier = ResourceIdentifier(resourceArn: string)

  /** The query of the tag search: its type and the JSON text of a `SearchQuery`. */
  datatype ResourceQuery = ResourceQuery(queryType: string, query: string)

  datatype SearchInput = SearchInput(nextToken: Option<string>, resourceQuery: ResourceQuery)

  datatype DescribeInput = DescribeInput(alarmNames: seq<string>, nextToken: Option<string>)

  /** One page of the describe call: its composite alarms and its metric alarms. */
  datatype DescribeOutput = DescribeOutput(compositeAlarms: seq<RawAlarm>, metricAlarms: seq<RawAlarm>)

  type SearchClient = ScriptedClient<SearchInput, seq<ResourceIdentifier>>

  type DescribeClient = ScriptedClient<DescribeInput, DescribeOutput>

  // ---------------------------------------------------------------------------
  // Specification

  /** The name of the alarm a matched resource is. */
  function NameOf(identifier: ResourceIdentifier): Result<string, Error>
  {
    GetAlarmName(identifier.resourceArn)
  }

  /** The alarm names of one search page, in order, or the error of the first ARN that has none. */
  function ExtractNames(identifiers: seq<ResourceIdentifier>): Result<seq<string>, Error>
  {
    TraverseAll(identifiers, NameOf)
  }

  /**
    A page's names are extracted exactly when every ARN on it names an alarm; they are then
    those names, in order; otherwise the error is that of the first ARN that names none.
   */
  lemma ExtractedNames(identifiers: seq<ResourceIdentifier>)
    ensures ExtractNames(identifiers).Ok? <==>
      forall i :: 0 <= i < |identifiers| ==> GetAlarmName(identifiers[i].resourceArn).Ok?
    ensures ExtractNames(identifiers).Ok? ==>
      && |ExtractNames(identifiers).value| == |identifiers|
      && forall i :: 0 <= i < |identifiers| ==>
           ExtractNames(identifiers).value[i] == GetAlarmName(identifiers[i].resourceArn).value
    ensures ExtractNames(identifiers).Err? ==>
      exists i :: 0 <= i < |identifiers| && GetAlarmName(identifiers[i].resourceArn) == Err(ExtractNames(identifiers).error)
               && forall j :: 0 <= j < i ==> GetAlarmName(identifiers[j].resourceArn).Ok?
  {
    var r := TraverseAll(identifiers, NameOf);
    assert forall i :: 0 <= i < |identifiers| ==> NameOf(identifiers[i]) == GetAlarmName(identifiers[i].resourceArn);
  }

  /** The status records of one describe page: its composite alarms, then its metric alarms. */
  function PageStatuses(output: DescribeOutput): Result<seq<AlarmStatus>, Error>
  {
    Ok(CompositeAlarmsStatus(output.compositeAlarms) + MetricAlarmsStatus(output.metricAlarms))
  }

  /** Appending a page's composite records, then its metric records, appends its status records. */
  lemma PageStatusesAppended(gathered: seq<AlarmStatus>, output: DescribeOutput)
    ensures gathered + CompositeAlarmsStatus(output.compositeAlarms) + MetricAlarmsStatus(output.metricAlarms)
            == gathered + PageStatuses(output).value
  {
  }

  /** Stage two: the names gathered from the search pages fetched up to the first nil token. */
  function ResolveAlarmNames(script: seq<Reply<seq<ResourceIdentifier>>>): Result<seq<string>, Error>
    requires Drains(script)
  {
    ResolveNamesWith(script, NameOf)
  }

  /** Stage two, with `nameOf` giving the name of each matched resource. */
  function ResolveNamesWith(script: seq<Reply<seq<ResourceIdentifier>>>, nameOf: ResourceIdentifier -> Result<string, Error>)
    : Result<seq<string>, Error>
    requires Drains(script)
  {
    Paginate(Fetched(script), TraverseWith(nameOf), SearchFailed)
  }

  /** Stage three: the records gathered from the describe pages fetched up to the first nil token. */
  function FetchAlarmStatuses(script: seq<Reply<DescribeOutput>>): Result<seq<AlarmStatus>, Error>
    requires Drains(script)
  {
    Paginate(Fetched(script), PageStatuses, DescribeFailed)
  }

  /**
    The whole lookup. `marshal` stands for the JSON encoding of the query, which may fail;
    `order` is the order in which the tag map is enumerated.
   */
  function AlarmsWithTags(tags: map<string, string>, order: seq<string>, marshal: SearchQuery -> Option<string>,
                          searchScript: seq<Reply<seq<ResourceIdentifier>>>,
                          describeScript: seq<Reply<DescribeOutput>>): Result<seq<AlarmStatus>, Error>
    requires EnumeratesKeys(order, tags)
    requires Drains(searchScript) && Drains(describeScript)
  {
    AlarmsWithTagsWith(tags, order, marshal, NameOf, searchScript, describeScript)
  }

  function AlarmsWithTagsWith(tags: map<string, string>, order: seq<string>, marshal: SearchQuery -> Option<string>,
                              nameOf: ResourceIdentifier -> Result<string, Error>,
                              searchScript: seq<Reply<seq<ResourceIdentifier>>>,
                              describeScript: seq<Reply<DescribeOutput>>): Result<seq<AlarmStatus>, Error>
    requires EnumeratesKeys(order, tags)
    requires Drains(searchScript) && Drains(describeScript)
  {
    if marshal(SearchResourceQuery(tags, order)).None? then Err(QueryConstruction)
    else
      match ResolveNamesWith(searchScript, nameOf)
      case Err(e) => Err(e)
      case Ok(_) => FetchAlarmStatuses(describeScript)
  }

  /** The inputs of the first `n` search calls: each carries the token of the page before. */
  function SearchCalls(script: seq<Reply<seq<ResourceIdentifier>>>, resourceQuery: ResourceQuery, n: nat): seq<SearchInput>
    requires n <= |script|
  {
    if n == 0 then [] else SearchCalls(script, resourceQuery, n - 1) + [SearchInput(TokenAfter(script, n - 1), resourceQuery)]
  }

  /** The inputs of the first `n` describe calls: all the names, and the token of the page before. */
  function DescribeCalls(script: seq<Reply<DescribeOutput>>, alarmNames: seq<string>, n: nat): seq<DescribeInput>
    requires n <= |script|
  {
    if n == 0 then [] else DescribeCalls(script, alarmNames, n - 1) + [DescribeInput(alarmNames, TokenAfter(script, n - 1))]
  }

  /** Search call `i` carries the query and the token of reply `i - 1` (none for the first call). */
  lemma {:induction false} SearchCallsCarryQuery(script: seq<Reply<seq<ResourceIdentifier>>>, resourceQuery: ResourceQuery, n: nat)
    requires n <= |script|
    ensures |SearchCalls(script, resourceQuery, n)| == n
    ensures forall i :: 0 <= i < n ==> SearchCalls(script, resourceQuery, n)[i] == SearchInput(TokenAfter(script, i), resourceQuery)
  {
    if n > 0 {
      SearchCallsCarryQuery(script, resourceQuery, n - 1);
    }
  }

  /** Describe call `i` carries all the names and the token of reply `i - 1` (none for the first call). */
  lemma {:induction false} DescribeCallsCarryNames(script: seq<Reply<DescribeOutput>>, alarmNames: seq<string>, n: nat)
    requires n <= |script|
    ensures |DescribeCalls(script, alarmNames, n)| == n
    ensures forall i :: 0 <= i < n ==> DescribeCalls(script, alarmNames, n)[i] == DescribeInput(alarmNames, TokenAfter(script, i))
  {
    if n > 0 {
      DescribeCallsCarryNames(script, alarmNames, n - 1);
    }
  }

  // ---------------------------------------------------------------------------
  // The lookup

  /**
    The lookup against two remote clients. It returns what `AlarmsWithTags` describes, and
    the clients' logs show the calls it made: one search call per fetched search page, each
    with the previous page's token and the same query; then, only if the search succeeded,
    one describe call per fetched describe page, each with the full list of names.
   */
  method GetAlarmsWithTags(search: SearchClient, describe: DescribeClient, tags: map<string, string>,
                           order: seq<string>, marshal: SearchQuery -> Option<string>)
    returns (r: Result<seq<AlarmStatus>, Error>)
    requires EnumeratesKeys(order, tags)
    requires Drains(search.script) && Drains(describe.script)
    requires search.received == [] && describe.received == []
    modifies search, describe
    ensures r == AlarmsWithTags(tags, order, marshal, search.script, describe.script)
    ensures |search.received| <= FirstStop(search.script) + 1
    ensures marshal(SearchResourceQuery(tags, order)).None? ==> search.received == []
    ensures marshal(SearchResourceQuery(tags, order)).Some? ==>
      && 0 < |search.received|
      && search.received == SearchCalls(search.script, ResourceQuery(ResourceQueryType, marshal(SearchResourceQuery(tags, order)).value),
                                        |search.received|)
    ensures marshal(SearchResourceQuery(tags, order)).Some? && ResolveAlarmNames(search.script).Ok? ==>
      |search.received| == FirstStop(search.script) + 1
    ensures marshal(SearchResourceQuery(tags, order)).Some? && ResolveAlarmNames(search.script).Err? ==>
      FailsAt(search.script, |search.received| - 1, TraverseWith(NameOf), SearchFailed)
    ensures describe.received != [] <==>
      marshal(SearchResourceQuery(tags, order)).Some? && ResolveAlarmNames(search.script).Ok?
    ensures describe.received != [] ==>
      describe.received == DescribeCalls(describe.script, ResolveAlarmNames(search.script).value, FirstStop(describe.script) + 1)
  {
    r := LookupWith(search, describe, tags, order, marshal, NameOf);
  }

  /**
    `GetAlarmsWithTags` with the name of each matched resource given by `nameOf`; the
    lookup passes the alarm-name extraction of an ARN.
   */
  method LookupWith(search: SearchClient, describe: DescribeClient, tags: map<string, string>,
                    order: seq<string>, marshal: SearchQuery -> Option<string>,
                    nameOf: ResourceIdentifier -> Result<string, Error>)
    returns (r: Result<seq<AlarmStatus>, Error>)
    requires EnumeratesKeys(order, tags)
    requires Drains(search.script) && Drains(describe.script)
    requires search.received == [] && describe.received == []
    modifies search, describe
    ensures r == AlarmsWithTagsWith(tags, order, marshal, nameOf, search.script, describe.script)
    ensures |search.received| <= FirstStop(search.script) + 1
    ensures marshal(SearchResourceQuery(tags, order)).None? ==> search.received == []
    ensures marshal(SearchResourceQuery(tags, order)).Some? ==>
      && 0 < |search.received|
      && search.received == SearchCalls(search.script, ResourceQuery(ResourceQueryType, marshal(SearchResourceQuery(tags, order)).value),
                                        |search.received|)
    ensures marshal(SearchResourceQuery(tags, order)).Some? && ResolveNamesWith(search.script, nameOf).Ok? ==>
      |search.received| == FirstStop(search.script) + 1
    ensures marshal(SearchResourceQuery(tags, order)).Some? && ResolveNamesWith(search.script, nameOf).Err? ==>
      FailsAt(search.script, |search.received| - 1, TraverseWith(nameOf), SearchFailed)
    ensures describe.received != [] <==>
      marshal(SearchResourceQuery(tags, order)).Some? && ResolveNamesWith(search.script, nameOf).Ok?
    ensures describe.received != [] ==>
      describe.received == DescribeCalls(describe.script, ResolveNamesWith(search.script, nameOf).value, FirstStop(describe.script) + 1)
  {
    var query := marshal(SearchResourceQuery(tags, order));
    if query.None? {
      return Err(QueryConstruction);
    }
    var names := SearchAlarmNames(search, ResourceQuery(ResourceQueryType, query.value), nameOf);
    if names.Err? {
      return Err(names.error);
    }
    r := DescribeAlarms(describe, names.value);
  }

  /**
    The search loop: one call per page, each with the token of the page before, until a
    page has no token; the names `nameOf` gives every page's ARNs are gathered in order.
    The lookup passes the alarm-name extraction of an ARN as `nameOf`.
   */
  method SearchAlarmNames(search: SearchClient, resourceQuery: ResourceQuery,
                          nameOf: ResourceIdentifier -> Result<string, Error>)
    returns (r: Result<seq<string>, Error>)
    requires Drains(search.script) && search.received == []
    modifies search
    ensures r == Paginate(Fetched(search.script), TraverseWith(nameOf), SearchFailed)
    ensures 0 < |search.received| <= FirstStop(search.script) + 1
    ensures r.Ok? ==> |search.received| == FirstStop(search.script) + 1
    ensures r.Err? ==> FailsAt(search.script, |search.received| - 1, TraverseWith(nameOf), SearchFailed)
    ensures search.received == SearchCalls(search.script, resourceQuery, |search.received|)
  {
    var alarmNames: seq<string> := [];
    var nextToken: Option<string> := None;
    while true
      invariant LoopState(search.script, |search.received|, TraverseWith(nameOf), SearchFailed, alarmNames, nextToken)
      invariant search.received == SearchCalls(search.script, resourceQuery, |search.received|)
      decreases FirstStop(search.script) - |search.received|
    {
      ghost var calls := |search.received|;
      var reply := search.Call(SearchInput(nextToken, resourceQuery));
      assert search.received == SearchCalls(search.script, resourceQuery, calls + 1);
      if reply.Failed? {
        LoopFails(search.script, calls, TraverseWith(nameOf), SearchFailed, alarmNames, nextToken);
        return Err(SearchFailed);
      }
      var names := PageAlarmNames(reply.items, nameOf);
      if names.Err? {
        LoopFails(search.script, calls, TraverseWith(nameOf), SearchFailed, alarmNames, nextToken);
        return Err(names.error);
      }
      ghost var gathered := alarmNames;
      alarmNames := alarmNames + names.value;
      if reply.nextToken.None? {
        LoopEnds(search.script, calls, TraverseWith(nameOf), SearchFailed, gathered, nextToken);
        break;
      }
      LoopContinues(search.script, calls, TraverseWith(nameOf), SearchFailed, gathered, nextToken);
      nextToken := reply.nextToken;
    }
    return Ok(alarmNames);
  }

  /** The names `nameOf` gives one page's ARNs, in order; the first ARN without a name ends it with its error. */
  method PageAlarmNames(page: seq<ResourceIdentifier>, nameOf: ResourceIdentifier -> Result<string, Error>)
    returns (r: Result<seq<string>, Error>)
    ensures r == TraverseAll(page, nameOf)
  {
    var alarmNames: seq<string> := [];
    var i := 0;
    while i < |page|
      invariant 0 <= i <= |page|
      invariant TraverseAll(page[..i], nameOf) == Ok(alarmNames)
    {
      var name := nameOf(page[i]);
      assert page[..i + 1][..i] == page[..i];
      if name.Err? {
        TraverseAllAppend(page[..i + 1], page[i + 1..], nameOf);
        assert page[..i + 1] + page[i + 1..] == page;
        return Err(name.error);
      }
      alarmNames := alarmNames + [name.value];
      i := i + 1;
    }
    assert page[..i] == page;
    return Ok(alarmNames);
  }

  /**
    The describe loop: one call per page, each with all the names and the token of the page
    before, until a page has no token; each page adds its composite alarms, then its metric
    alarms.
   */
  method DescribeAlarms(describe: DescribeClient, alarmNames: seq<string>)
    returns (r: Result<seq<AlarmStatus>, Error>)
    requires Drains(describe.script) && describe.received == []
    modifies describe
    ensures r == FetchAlarmStatuses(describe.script)
    ensures describe.received == DescribeCalls(describe.script, alarmNames, FirstStop(describe.script) + 1)
  {
    var alarmStatus: seq<AlarmStatus> := [];
    var nextToken: Option<string> := None;
    while true
      invariant LoopState(describe.script, |describe.received|, PageStatuses, DescribeFailed, alarmStatus, nextToken)
      invariant describe.received == DescribeCalls(describe.script, alarmNames, |describe.received|)
      decreases FirstStop(describe.script) - |describe.received|
    {
      ghost var calls := |describe.received|;
      var reply := describe.Call(DescribeInput(alarmNames, nextToken));
      assert describe.received == DescribeCalls(describe.script, alarmNames, calls + 1);
      if reply.Failed? {
        LoopFails(describe.script, calls, PageStatuses, DescribeFailed, alarmStatus, nextToken);
        return Err(DescribeFailed);
      }
      ghost var gathered := alarmStatus;
      alarmStatus := alarmStatus + CompositeAlarmsStatus(reply.items.compositeAlarms);
      alarmStatus := alarmStatus + MetricAlarmsStatus(reply.items.metricAlarms);
      PageStatusesAppended(gathered, reply.items);
      if reply.nextToken.None? {
        LoopEnds(describe.script, calls, PageStatuses, DescribeFailed, gathered, nextToken);
        break;
      }
      LoopContinues(describe.script, calls, PageStatuses, DescribeFailed, gathered, nextToken);
      nextToken := reply.nextToken;
    }
    return Ok(alarmStatus);
  }

  // ---------------------------------------------------------------------------
  // Properties

  /** The identifiers of all successful pages, in page order. */
  function Identifiers(pages: seq<Reply<seq<ResourceIdentifier>>>): seq<ResourceIdentifier>
  {
    if |pages| == 0 then []
    else Identifiers(pages[..|pages| - 1])
         + (match pages[|pages| - 1] case Failed => [] case Page(items, _) => items)
  }

  /** Over pages that all succeeded, gathering names page by page is one extraction over all identifiers. */
  lemma {:induction false} GatheredNames(pages: seq<Reply<seq<ResourceIdentifier>>>)
    requires forall i :: 0 <= i < |pages| ==> pages[i].Page?
    ensures Paginate(pages, TraverseWith(NameOf), SearchFailed) == ExtractNames(Identifiers(pages))
  {
    if |pages| > 0 {
      var init := pages[..|pages| - 1];
      GatheredNames(init);
      TraverseAllAppend(Identifiers(init), pages[|pages| - 1].items, NameOf);
    }
  }

  /**
    Stage two succeeds exactly when every fetched search page succeeded and every ARN on
    them names an alarm; the names are then those of all the ARNs, in page order and in
    order within each page.
   */
  lemma ResolvedNames(script: seq<Reply<seq<ResourceIdentifier>>>)
    requires Drains(script)
    ensures ResolveAlarmNames(script).Ok? <==>
      && (forall i :: 0 <= i < |Fetched(script)| ==> Fetched(script)[i].Page?)
      && (forall j :: 0 <= j < |Identifiers(Fetched(script))| ==>
            GetAlarmName(Identifiers(Fetched(script))[j].resourceArn).Ok?)
    ensures ResolveAlarmNames(script).Ok? ==>
      && |ResolveAlarmNames(script).value| == |Identifiers(Fetched(script))|
      && forall j :: 0 <= j < |Identifiers(Fetched(script))| ==>
           ResolveAlarmNames(script).value[j] == GetAlarmName(Identifiers(Fetched(script))[j].resourceArn).value
  {
    var pages := Fetched(script);
    PaginateAllOrNothing(pages, TraverseWith(NameOf), SearchFailed);
    if forall i :: 0 <= i < |pages| ==> pages[i].Page? {
      GatheredNames(pages);
      ExtractedNames(Identifiers(pages));
    }
  }

  /** A search page with a token is gathered and the search goes on; with no identifiers it changes nothing. */
  lemma SearchContinuesAfterToken(identifiers: seq<ResourceIdentifier>, token: string,
                                  script: seq<Reply<seq<ResourceIdentifier>>>)
    requires Drains(script)
    ensures Drains([Page(identifiers, Some(token))] + script)
    ensures ResolveAlarmNames([Page(identifiers, Some(token))] + script) ==
      match ExtractNames(identifiers)
      case Err(e) => Err(e)
      case Ok(x) =>
        match ResolveAlarmNames(script)
        case Err(e) => Err(e)
        case Ok(y) => Ok(x + y)
    ensures identifiers == [] ==> ResolveAlarmNames([Page(identifiers, Some(token))] + script) == ResolveAlarmNames(script)
  {
    PaginateContinues(identifiers, token, script, TraverseWith(NameOf), SearchFailed);
    if identifiers == [] && ResolveAlarmNames(script).Ok? {
      assert [] + ResolveAlarmNames(script).value == ResolveAlarmNames(script).value;
    }
  }

  /** A search page without a token is the last one: whatever the server would answer next is never asked for. */
  lemma SearchStopsAtNilToken(identifiers: seq<ResourceIdentifier>, script: seq<Reply<seq<ResourceIdentifier>>>)
    ensures Drains([Page(identifiers, None)] + script)
    ensures ResolveAlarmNames([Page(identifiers, None)] + script) == ExtractNames(identifiers)
  {
    PaginateStops(identifiers, script, TraverseWith(NameOf), SearchFailed);
  }

  /** A describe page with a token contributes its records and the describe loop goes on. */
  lemma DescribeContinuesAfterToken(output: DescribeOutput, token: string, script: seq<Reply<DescribeOutput>>)
    requires Drains(script)
    ensures Drains([Page(output, Some(token))] + script)
    ensures FetchAlarmStatuses([Page(output, Some(token))] + script) ==
      match FetchAlarmStatuses(script)
      case Err(e) => Err(e)
      case Ok(y) => Ok(CompositeAlarmsStatus(output.compositeAlarms) + MetricAlarmsStatus(output.metricAlarms) + y)
  {
    PaginateContinues(output, token, script, PageStatuses, DescribeFailed);
  }

  /** A describe page without a token is the last one. */
  lemma DescribeStopsAtNilToken(output: DescribeOutput, script: seq<Reply<DescribeOutput>>)
    ensures Drains([Page(output, None)] + script)
    ensures FetchAlarmStatuses([Page(output, None)] + script) ==
      Ok(CompositeAlarmsStatus(output.compositeAlarms) + MetricAlarmsStatus(output.metricAlarms))
  {
    PaginateStops(output, script, PageStatuses, DescribeFailed);
  }

  /** Number of alarms on the successful pages. */
  function AlarmCount(pages: seq<Reply<DescribeOutput>>): nat
  {
    if |pages| == 0 then 0
    else AlarmCount(pages[..|pages| - 1])
         + (match pages[|pages| - 1]
            case Failed => 0
            case Page(out, _) => |out.compositeAlarms| + |out.metricAlarms|)
  }

  /** Stage three fails only on a failed describe page, and otherwise yields one record per alarm. */
  lemma {:induction false} StatusCount(pages: seq<Reply<DescribeOutput>>)
    ensures Paginate(pages, PageStatuses, DescribeFailed).Ok? <==> forall i :: 0 <= i < |pages| ==> pages[i].Page?
    ensures Paginate(pages, PageStatuses, DescribeFailed).Ok? ==>
      |Paginate(pages, PageStatuses, DescribeFailed).value| == AlarmCount(pages)
  {
    PaginateAllOrNothing(pages, PageStatuses, DescribeFailed);
    if |pages| > 0 {
      StatusCount(pages[..|pages| - 1]);
    }
  }

  /**
    The records of describe page `k` sit, composite before metric, between those of the
    pages fetched before it and those of the pages fetched after it.
   */
  lemma StatusesInPageOrder(script: seq<Reply<DescribeOutput>>, k: nat)
    requires Drains(script) && FetchAlarmStatuses(script).Ok?
    requires k < |Fetched(script)|
    ensures Fetched(script)[k].Page?
    ensures Paginate(Fetched(script)[..k], PageStatuses, DescribeFailed).Ok?
    ensures Paginate(Fetched(script)[k + 1..], PageStatuses, DescribeFailed).Ok?
    ensures FetchAlarmStatuses(script).value ==
      Paginate(Fetched(script)[..k], PageStatuses, DescribeFailed).value
      + CompositeAlarmsStatus(Fetched(script)[k].items.compositeAlarms)
      + MetricAlarmsStatus(Fetched(script)[k].items.metricAlarms)
      + Paginate(Fetched(script)[k + 1..], PageStatuses, DescribeFailed).value
  {
    PageInPlace(Fetched(script), k, PageStatuses, DescribeFailed);
  }

  /** Some fetched page failed. */
  predicate AnyFailed<T>(pages: seq<Reply<T>>)
  {
    exists i :: 0 <= i < |pages| && pages[i].Failed?
  }

  /**
    All or nothing: the lookup fails exactly when the query cannot be encoded, a search
    page fails, an ARN on a search page names no alarm, or a describe page fails.
   */
  lemma LookupAllOrNothing(tags: map<string, string>, order: seq<string>, marshal: SearchQuery -> Option<string>,
                           searchScript: seq<Reply<seq<ResourceIdentifier>>>,
                           describeScript: seq<Reply<DescribeOutput>>)
    requires EnumeratesKeys(order, tags)
    requires Drains(searchScript) && Drains(describeScript)
    ensures AlarmsWithTags(tags, order, marshal, searchScript, describeScript).Err? <==>
      || marshal(SearchResourceQuery(tags, order)).None?
      || AnyFailed(Fetched(searchScript))
      || (exists j :: 0 <= j < |Identifiers(Fetched(searchScript))| &&
            GetAlarmName(Identifiers(Fetched(searchScript))[j].resourceArn).Err?)
      || AnyFailed(Fetched(describeScript))
    ensures AlarmsWithTags(tags, order, marshal, searchScript, describeScript).Ok? ==>
      |AlarmsWithTags(tags, order, marshal, searchScript, describeScript).value| == AlarmCount(Fetched(describeScript))
  {
    ResolvedNames(searchScript);
    StatusCount(Fetched(describeScript));
  }
}
