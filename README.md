# CloudWatch alarm lookup by tags

A Dafny model of the alarm-status lookup of the copilot CLI's CloudWatch wrapper
(`internal/pkg/aws/cloudwatch/cloudwatch.go`). `GetAlarmsWithTags` finds every CloudWatch
alarm that carries a given set of resource tags and reports the current state of each one.
It works in three stages:

1. It builds a resource-groups tag query: one resource-type filter for
   `AWS::CloudWatch::Alarm`, and one tag filter per tag.
2. It pages through the tag search. Each call passes the previous page's continuation
   token, and the loop stops at the first page without one. Every matched alarm ARN is
   turned into an alarm name: the text after the single colon of the ARN's resource part.
3. It pages through CloudWatch's describe call in the same way, passing the full list of
   names on every call. Each composite alarm and each metric alarm it returns becomes one
   `AlarmStatus` record: composite records first, then metric ones, page by page. A nil
   string becomes `""`, and the record's type is set to "Composite" or "Metric".

Any error ends the lookup with that error and no partial result.

Files:
- `wrappers.dfy`: `Option` and `Result`.
- `strings.dfy`: Go's `strings.Split`, `strings.SplitN` and `strings.Count` for a
  one-character separator, with `Join` as their inverse.
- `arn.dfy`: a stand-in for the AWS SDK's ARN parser.
- `cloudwatch.dfy`: the pure part of the file: constants, `AlarmStatus`, the query,
  `getAlarmName`, and the two normalisers.
- `paging.dfy`: generic token-driven pagination. `Paginate` is what such a loop gathers
  from a scripted sequence of replies. `ScriptedClient` is a remote client answering from
  such a script and logging the inputs it received.
- `lookup.dfy`: `GetAlarmsWithTags` as a method with the source's two loops, proved
  against the specification function `AlarmsWithTags`, plus its properties.

## Model

All source paths are `internal/pkg/aws/cloudwatch/cloudwatch.go`.

| member | source | states |
|---|---|---|
| CloudWatch.SearchResourceQuery | internal/pkg/aws/cloudwatch/cloudwatch.go:107-128 | The query has exactly one resource-type filter, `AWS::CloudWatch::Alarm`. It has one tag filter per tag: every filter names a tag key and holds exactly that tag's value, and every tag appears as such a filter. |
| CloudWatch.FiltersDistinct | internal/pkg/aws/cloudwatch/cloudwatch.go:116-122 | No two tag filters of the query are equal: the map's keys are visited once each. |
| CloudWatch.QueryIndependentOfOrder | internal/pkg/aws/cloudwatch/cloudwatch.go:116-122 | For any two map-iteration orders, the tag filters are the same multiset and the resource-type filters are equal. |
| CloudWatch.GetAlarmName | internal/pkg/aws/cloudwatch/cloudwatch.go:133-143 | Succeeds iff the ARN parses and its resource part holds exactly one colon, i.e. splits into two segments. A parse failure yields an error carrying the ARN and the parse error. Any other failure yields an error carrying the resource. On success the name holds no colon and is the text after the resource's only colon. |
| CloudWatch.GetAlarmNameOfFormatted | internal/pkg/aws/cloudwatch/cloudwatch.go:133-143 | For every well-formed ARN whose resource is `<type>:<name>`, neither part holding a colon, the result is `name`. |
| CloudWatch.GetAlarmNameExample | internal/pkg/aws/cloudwatch/cloudwatch.go:130-132 | The documented example: `arn:aws:cloudwatch:us-west-2:1234567890:alarm:SDc-ReadCapacityUnitsLimit-BasicAlarm` gives `SDc-ReadCapacityUnitsLimit-BasicAlarm`. |
| CloudWatch.Normalize | internal/pkg/aws/cloudwatch/cloudwatch.go:148-155 | The status record of one alarm: ARN, name, reason and state copied with nil as `""`, the given type, and the update time. A definition; `NormalizeLossless` proves what it keeps. |
| CloudWatch.AlarmsStatus | internal/pkg/aws/cloudwatch/cloudwatch.go:145-173 | One record per alarm, in the same order: record i is alarm i normalised with the given type. |
| CloudWatch.CompositeAlarmsStatus | internal/pkg/aws/cloudwatch/cloudwatch.go:145-158 | One record per composite alarm (its own contract gives the length). `CompositeRecords` proves the field-by-field copy and the "Composite" type. |
| CloudWatch.MetricAlarmsStatus | internal/pkg/aws/cloudwatch/cloudwatch.go:160-173 | One record per metric alarm (its own contract gives the length). `MetricRecords` proves the field-by-field copy and the "Metric" type. |
| CloudWatch.CompositeRecords | internal/pkg/aws/cloudwatch/cloudwatch.go:145-158 | Composite records: same count and order. Each copies ARN, name, reason and state, with nil as `""`, and the update time. Its type is "Composite". |
| CloudWatch.MetricRecords | internal/pkg/aws/cloudwatch/cloudwatch.go:160-173 | The same for metric records, whose type is "Metric". |
| CloudWatch.NormalizeLossless | internal/pkg/aws/cloudwatch/cloudwatch.go:148-155 | A record keeps its given type. It gives back its alarm exactly when none of the alarm's four strings was nil: normalisation loses only the difference between nil and `""`. |
| CloudWatch.TypeTagSeparatesKinds | internal/pkg/aws/cloudwatch/cloudwatch.go:98-99 | In a page's merged records, filtering by type "Composite" gives back exactly the composite records, and "Metric" exactly the metric ones, each in order. |
| Strings.Split | internal/pkg/aws/cloudwatch/cloudwatch.go:138 | `strings.Split` on `:` gives one more piece than there are colons. No piece holds a colon, and joining the pieces with `:` gives back the text. |
| Strings.SplitJoin | internal/pkg/aws/cloudwatch/cloudwatch.go:138 | Splitting undoes joining, for colon-free pieces. |
| Strings.SplitN | internal/pkg/aws/cloudwatch/cloudwatch.go:134 | `strings.SplitN` gives 1 to n pieces, and joining them gives back the text. No piece but the last holds the separator, and the last holds one only when the limit was reached. |
| Strings.JoinShapeInjective | internal/pkg/aws/cloudwatch/cloudwatch.go:134 | At most one splitting of that shape joins to a given text, so the shape determines `SplitN`. |
| Strings.SplitNJoin | internal/pkg/aws/cloudwatch/cloudwatch.go:134 | `SplitN` undoes `Join` for pieces of `SplitN`'s shape. |
| Strings.CountJoin | internal/pkg/aws/cloudwatch/cloudwatch.go:138 | Joining k pieces that are colon-free except perhaps the last gives k - 1 colons, plus those of the last piece. |
| Arn.Parse | internal/pkg/aws/cloudwatch/cloudwatch.go:134-137 | Parsing succeeds iff the text starts with `arn:` and holds at least five colons. A missing prefix is the invalid-prefix error. On success, the four middle sections are colon-free and formatting the result gives back the text. |
| Arn.ParseFormat | internal/pkg/aws/cloudwatch/cloudwatch.go:134 | Parsing a formatted well-formed ARN gives back that ARN. |
| Paging.FirstStop | internal/pkg/aws/cloudwatch/cloudwatch.go:84-86 | The index of a reply that stops the loop: an error or a page with a nil token. |
| Paging.BeforeFirstStop | internal/pkg/aws/cloudwatch/cloudwatch.go:84-86 | No reply before that index stops the loop. |
| Paging.Paginate | internal/pkg/aws/cloudwatch/cloudwatch.go:66-103 | What a token-driven loop gathers from its replies: the first failed reply or rejected page ends it with that error; otherwise the pages' results are concatenated in page order. A definition; the `Paginate*` and `Loop*` lemmas state its properties. |
| Paging.PaginateAllOrNothing | internal/pkg/aws/cloudwatch/cloudwatch.go:66-103 | Gathering succeeds iff every reply is a page and every page is accepted. |
| Paging.PaginateAppend | internal/pkg/aws/cloudwatch/cloudwatch.go:66-103 | Gathering two runs of replies is gathering the first, then the second, with the results concatenated. |
| Paging.LoopContinues | internal/pkg/aws/cloudwatch/cloudwatch.go:84-86 | A page with a token that is accepted keeps the loop invariant. The page's results are appended and its token is passed on. |
| Paging.LoopEnds | internal/pkg/aws/cloudwatch/cloudwatch.go:84-86 | An accepted page without a token is the first stop. The loop's result is everything gathered, this page included. |
| Paging.LoopFails | internal/pkg/aws/cloudwatch/cloudwatch.go:74-81 | A failed reply is the first stop and ends gathering with that failure. A rejected page ends it with the rejection's error. |
| Paging.FailsAtUnique | internal/pkg/aws/cloudwatch/cloudwatch.go:74-81 | At most one reply is where gathering ends in error. |
| Paging.ErrorIsFinal | internal/pkg/aws/cloudwatch/cloudwatch.go:74-81 | Once gathering has failed, the replies fetched after it change nothing. |
| Paging.PaginateContinues | internal/pkg/aws/cloudwatch/cloudwatch.go:84-86 | A first page with a token is gathered, and the loop continues on the rest of the script. |
| Paging.PaginateStops | internal/pkg/aws/cloudwatch/cloudwatch.go:84-86 | A first page without a token ends the loop; the rest of the script is never fetched. |
| Paging.PageInPlace | internal/pkg/aws/cloudwatch/cloudwatch.go:98-99 | A page's results sit between those of the pages before it and those of the pages after it. |
| Paging.TraverseAll | internal/pkg/aws/cloudwatch/cloudwatch.go:77-83 | Succeeds iff every item succeeds, and then gives one result per item, in order. Otherwise the error is that of the first item that fails: every item before it succeeds. |
| Paging.TraverseAllAppend | internal/pkg/aws/cloudwatch/cloudwatch.go:77-83 | Traversing two runs of items is traversing the first, then the second. |
| Paging.ScriptedClient.Call | internal/pkg/aws/cloudwatch/cloudwatch.go:67-73 | Call n returns reply n of the script and appends its input to the log. |
| AlarmLookup.ExtractedNames | internal/pkg/aws/cloudwatch/cloudwatch.go:77-83 | A page's names are extracted iff every ARN on it names an alarm. They are then those names, in order; otherwise the error is that of the first ARN that names no alarm. |
| AlarmLookup.PageAlarmNames | internal/pkg/aws/cloudwatch/cloudwatch.go:77-83 | The inner loop returns the traversal of the page's identifiers: all names in order, or the first error. |
| AlarmLookup.SearchAlarmNames | internal/pkg/aws/cloudwatch/cloudwatch.go:66-87 | The search loop returns what gathering the fetched search pages gives. Its calls are logged: one per page, each with the same query and the previous page's token. On success it makes exactly one call per fetched page. On error its last call is at the unique failing page. |
| AlarmLookup.DescribeAlarms | internal/pkg/aws/cloudwatch/cloudwatch.go:88-104 | The describe loop returns what gathering the fetched describe pages gives. It makes one call per fetched page, each with all the names and the previous page's token. |
| AlarmLookup.AlarmsWithTags | internal/pkg/aws/cloudwatch/cloudwatch.go:59-105 | The meaning of the whole lookup: a query-encoding error; otherwise the search stage's error; otherwise the describe stage's result. A definition; `LookupAllOrNothing`, `ResolvedNames` and `StatusCount` state its properties, and `GetAlarmsWithTags` is proved to return it. |
| AlarmLookup.LookupWith | internal/pkg/aws/cloudwatch/cloudwatch.go:59-105 | The three stages in sequence, with `nameOf` naming each matched resource. The postconditions are those of `GetAlarmsWithTags`. |
| AlarmLookup.GetAlarmsWithTags | internal/pkg/aws/cloudwatch/cloudwatch.go:59-105 | The result is `AlarmsWithTags`. A query that cannot be encoded means no remote call. Otherwise every search call carries the query and the previous page's token, with one call per fetched page on success, or the last call at the failing page. Describe is called iff the search succeeded, then once per fetched describe page with all the names. |
| AlarmLookup.SearchCallsCarryQuery | internal/pkg/aws/cloudwatch/cloudwatch.go:67-73 | Search call i carries the query and the token of reply i - 1; the first call carries none. |
| AlarmLookup.DescribeCallsCarryNames | internal/pkg/aws/cloudwatch/cloudwatch.go:91-94 | Describe call i carries all the names and the token of reply i - 1; the first call carries none. |
| AlarmLookup.GatheredNames | internal/pkg/aws/cloudwatch/cloudwatch.go:77-83 | Over successful pages, gathering names page by page equals extracting names from all identifiers concatenated in page order. |
| AlarmLookup.ResolvedNames | internal/pkg/aws/cloudwatch/cloudwatch.go:66-87 | Stage two succeeds iff every fetched search page succeeded and every ARN on them names an alarm. The names are then those of all the ARNs, in page order and in order within each page. |
| AlarmLookup.SearchContinuesAfterToken | internal/pkg/aws/cloudwatch/cloudwatch.go:84-86 | A search page with a token is gathered and the search continues. An empty page with a token changes nothing. |
| AlarmLookup.SearchStopsAtNilToken | internal/pkg/aws/cloudwatch/cloudwatch.go:84-86 | A search page without a token is the last one fetched. |
| AlarmLookup.DescribeContinuesAfterToken | internal/pkg/aws/cloudwatch/cloudwatch.go:100-102 | A describe page with a token contributes its composite records, then its metric records, and the loop continues. |
| AlarmLookup.DescribeStopsAtNilToken | internal/pkg/aws/cloudwatch/cloudwatch.go:100-102 | A describe page without a token is the last one fetched. |
| AlarmLookup.StatusCount | internal/pkg/aws/cloudwatch/cloudwatch.go:90-103 | Stage three fails iff some fetched describe page failed. Otherwise it yields exactly one record per alarm on the fetched pages. |
| AlarmLookup.StatusesInPageOrder | internal/pkg/aws/cloudwatch/cloudwatch.go:98-99 | The records of describe page k appear, composite before metric, between the records of the earlier pages and those of the later pages. |
| AlarmLookup.LookupAllOrNothing | internal/pkg/aws/cloudwatch/cloudwatch.go:59-105 | The lookup fails iff one of these holds: the query cannot be encoded, a search page fails, an ARN names no alarm, or a describe page fails. On success it yields one record per alarm described. |

## Left out

- `New` and the AWS session: construction only. Each remote client is a parameter.
- The real SDK clients. A client is a script of replies, one per call; a reply is an error or a page with an optional token. The service's behaviour is not modelled, including a describe call given an empty name list.
- Token cycles. Every method requires the script to contain a stopping reply (`Drains`): a server that never returns a nil token makes the Go loop run forever, and that case is not modelled.
- JSON encoding. `json.Marshal` is the parameter `marshal` from the query structure to its text, and `None` stands for an encoding error. The bytes it produces are not modelled.
- Go map iteration order. `order` is a parameter, required to list each tag key once. Properties that do not depend on it are stated as multisets.
- `arn.Parse` is not part of this model's sources. `Arn.Parse` follows the AWS SDK's parser: it checks the `arn:` prefix, then splits into at most six sections and requires six. Its two errors are the invalid prefix and too few sections.
- `time.Time.Unix()`: the update time is given as a ready `int64`.
- Error texts. `fmt.Errorf` messages become `Error` constructors carrying the same data (the ARN, the resource, the parse cause); wrapping is not modelled.
- Nil pointers the source dereferences without a check (`*identifier.ResourceArn`, a nil timestamp) panic in Go. They are not modelled: an ARN is a string and a timestamp a number.
- The SDK's separate composite-alarm and metric-alarm types are one `RawAlarm` record holding only the five fields the lookup reads.
- GetAlarmNameExample: the example ARN is written as a concatenation of its colon-terminated sections. It is the same text as the documented one.
- AlarmLookup.SearchAlarmNames: each page's names are collected by `PageAlarmNames` and then appended. The source appends them one by one to the running list. The two differ only in a list that an error discards.
- AlarmLookup.SearchAlarmNames and AlarmLookup.LookupWith: they take the name of a matched resource as the parameter `nameOf`. `GetAlarmsWithTags` passes `GetAlarmName`, as the source calls it.
- The mock file generated for the addons package: test scaffolding, not behaviour.
