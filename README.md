# Range-facet panel: a Dafny model

This project models the core of the `rangeFacet` panel of the Banana
dashboard (`src/app/panels/rangeFacet/module.js`). The panel draws a bucketed
time-series chart from a Solr response. Four parts are modelled:

- **The interval settings.** `set_interval` and `interval_label`, plus the
  `'10m'` fallback of `get_interval`.
- **The start of `get_data`.** This part clears the error and settles the
  interval. It raises the loading flag, takes the query ids, and refuses
  values mode without a value field.
- **The result handler of `get_data`.** Segment 0 resets the data and the hit
  counter and mints a new run id. An error response is parsed. A response is
  decoded only when its run id is current and the query ids still include
  the fixed facet id 0. In this source `get_data` is only ever called for
  segment 0 (lines 121, 124 and 516; the call for later segments at line 467
  is commented out), and segment 0 mints the run id it then compares, so the
  run-id check never rejects a response here; the model keeps it for later
  segments as written. The data is then decoded in one of three ways:
  - *count mode* reads an interleaved `[time, count, time, count, ...]`
    list;
  - *grouped values mode* builds one series per Solr group;
  - *ungrouped values mode* builds one series per query id from the
    documents.

  It keeps a hit counter per series and one for the whole dataset.
- **The series part of `render_panel`.** It copies legend labels onto each
  series. It builds the stacking, bar-count and x-axis options and aligns
  every series on one set of `required_times`. It drops zero points when
  `lines_smooth` is on. Before the first response `$scope.data` is
  undefined and a render plots nothing.
- **`time_format`.** It maps an interval to an x-axis label format. Nothing
  in the source calls it, and the x-axis options carry no time format; it is
  modelled as the function it is.

The panel's `$scope` is the class `Panel.RangeFacet`, whose methods update
its fields in place. Each method is proved against pure functions:

- `Decode.IdStep` describes one query id of the handler's loop.
- `Decode.Ingest` describes the whole loop.
- `Decode.Handle` describes the whole handler.
- `Alignment.RequiredTimes` and `Alignment.Smooth` describe the renderer.
- The functions of `Display` describe the options.

Module `DecodeLaws` proves the handler's laws on these functions:

- what segment 0 builds;
- how a later segment extends the series it reuses;
- when `render` is emitted;
- what an error response, a stale response, or a response without the
  facet id leaves behind.

Collaborators are parameters:

- `kbn.calculate_interval` with `kbn.secondsToHms` (`Kbn.autoInterval`);
- `kbn.interval_to_seconds`;
- `querySrv.list`, `querySrv.colors`, `parse_error`, and the date parsing of
  document times (`Env`);
- the two queries of a `timeSeries.ZeroFilled` series (`SeriesOps`);
- the clock reading that becomes the run id (`now`).

A series is known by its interval, its bounds and the sequence of `addValue`
calls made on it.

The source disagrees with its comments in one place, and the model follows
the code: the sort of `required_times` is commented "decending" but its
comparator `a - b` sorts ascending.

Two behaviours of the code are easy to miss; both are modelled as written:

- **Hits on reuse.** On a reused series the handler sets `$scope.hits` to
  zero rather than accumulating, so after such a segment the counter
  commented "Entire dataset level hits counter" (line 391) holds only the
  hits of the last query's series.
- **The interval at line 215.** With automatic intervals on, `get_data`
  overwrites `panel.interval` with the raw computed interval, without the
  `'10m'` fallback that `get_interval` applied just before. The interval
  handed to new series is the one with the fallback.

## Model

| member | source | states |
|---|---|---|
| Display.IntervalOrDefault | src/app/panels/rangeFacet/module.js:182 | a falsy interval becomes "10m", any other is kept; the result is never empty |
| Display.IntervalLabel | src/app/panels/rangeFacet/module.js:137-139 | " (auto)" is appended exactly when automatic intervals are on and the interval is the current one; the label always starts with the interval |
| Display.TimeFormat | src/app/panels/rangeFacet/module.js:657-670 | the format for each band of seconds: at least 2628000, at least 86400, at least 60, below 60 (the source defines but never calls it) |
| Display.TimeFormatCoarsens | src/app/panels/rangeFacet/module.js:657-670 | a longer interval never gets a finer format |
| Display.BarCount | src/app/panels/rangeFacet/module.js:561 | the bar count is the larger of `range_count` and 15 |
| Display.ResolveStacking | src/app/panels/rangeFacet/module.js:569-570 | percentage stacking exactly when stack and percentage are both on; plain stacking exactly when stack is on without percentage; the y maximum is 100 exactly under percentage stacking; the two never both apply |
| Display.FieldRequired | src/app/panels/rangeFacet/module.js:273-275 | the message for values mode names values mode |
| Alignment.Flatten | src/app/panels/rangeFacet/module.js:619-621 | the concatenation holds exactly the elements of the lists |
| Alignment.SortAscending | src/app/panels/rangeFacet/module.js:622-625 | the result is ascending and a permutation of the input |
| Alignment.DropAdjacentDuplicates | src/app/panels/rangeFacet/module.js:622-625 | the same elements remain, no more of them, and an ascending input becomes strictly ascending |
| Alignment.RequiredTimes | src/app/panels/rangeFacet/module.js:617-626 | empty for fewer than two series; otherwise strictly ascending and holding exactly the times of every series |
| Alignment.SmoothKeepsExactlyNonZero | src/app/panels/rangeFacet/module.js:635-646 | a point survives the smooth-line filter exactly when it is present and its value is not the number 0 |
| Alignment.SmoothIsSubsequence | src/app/panels/rangeFacet/module.js:635-646 | the survivors keep their order: the output is a subsequence, never longer |
| Alignment.SmoothDistributes | src/app/panels/rangeFacet/module.js:638-643 | filtering a concatenation filters each part |
| Alignment.SmoothIdempotent | src/app/panels/rangeFacet/module.js:635-646 | a second pass removes nothing more |
| Alignment.SmoothPoints | src/app/panels/rangeFacet/module.js:637-643 | the push loop builds exactly the filtered points |
| Decode.CountCalls | src/app/panels/rangeFacet/module.js:383-392 | an interleaved counts list gives one `addValue` call per pair |
| Decode.DocCalls | src/app/panels/rangeFacet/module.js:432-438 | one `addValue` call per document |
| Decode.GroupEntries | src/app/panels/rangeFacet/module.js:397-424 | entry j is group j's series, with the group key as alias and palette colour j |
| Decode.IdStep | src/app/panels/rangeFacet/module.js:357-452 | outside grouped mode the entry is stored at the id's position, which grows the data by at most one; run id, error and loading flag are untouched |
| Decode.Ingest | src/app/panels/rangeFacet/module.js:353-457 | outside grouped mode the data ends at least as long as the id list; run id, error and loading flag are untouched |
| DecodeLaws.CountCallsAt | src/app/panels/rangeFacet/module.js:383-389 | pair k of the counts list becomes call k, time from the even entry and count from the odd one |
| DecodeLaws.DocCallsAt | src/app/panels/rangeFacet/module.js:432-437 | document k becomes call k, with its time field parsed and its value field read |
| DecodeLaws.DocTotalAppend | src/app/panels/rangeFacet/module.js:400-414 | the grouped hit total is additive over the groups |
| DecodeLaws.FreshStep | src/app/panels/rangeFacet/module.js:360-366 | on segment 0 a query id appends a new series fed the response, and adds its hits to the dataset counter |
| DecodeLaws.FirstSegmentSeries | src/app/panels/rangeFacet/module.js:352-455 | from empty data on segment 0, one new series per id in id order, each fed the same calls; the dataset counter grows by the series hits once per id |
| DecodeLaws.FirstSegmentGroups | src/app/panels/rangeFacet/module.js:395-425 | from empty data on segment 0 in grouped mode, the data is the group entries, and the dataset counter adds the grouped total once per id |
| DecodeLaws.LaterSegmentSeries | src/app/panels/rangeFacet/module.js:367-377 | on a later segment each id reuses the series at its position and extends its calls; later entries are untouched; the dataset counter ends at one series' hits |
| DecodeLaws.RenderExactlyWhenCurrent | src/app/panels/rangeFacet/module.js:328-462 | `render` is emitted exactly when there is no error, the run is current and facet id 0 is queried; loading always ends; segment 0 mints the run id |
| DecodeLaws.ErrorResultKeepsData | src/app/panels/rangeFacet/module.js:335-339 | an error response sets the parsed message and keeps the data and counters as they stood after the segment-0 reset |
| DecodeLaws.StaleResultDropped | src/app/panels/rangeFacet/module.js:346 | a later segment of an older run changes nothing but the loading flag |
| DecodeLaws.FacetGuardKeepsData | src/app/panels/rangeFacet/module.js:343-348 | when the query ids lack the facet id 0, nothing is decoded or rendered: a later segment changes only the loading flag, segment 0 leaves its reset state |
| DecodeLaws.FirstSegmentResult | src/app/panels/rangeFacet/module.js:324-462 | a successful segment 0 outside grouped mode renders one new series per id, with the dataset counter at the sum of the series hits |
| DecodeLaws.FirstSegmentGroupedResult | src/app/panels/rangeFacet/module.js:395-425 | a successful grouped segment 0 renders the groups and counts the grouped total once per id |
| Panel.OrderedTimes | src/app/panels/rangeFacet/module.js:619-621 | each series' ordered times, in data order |
| Panel.FirstMissingInfo | src/app/panels/rangeFacet/module.js:553-557 | the first entry without info, or the length; every earlier entry has info |
| Panel.RangeFacet.constructor | src/app/panels/rangeFacet/module.js:89-91 | automatic intervals on, nominal interval "5m", `$scope.data` not yet defined |
| Panel.RangeFacet.SetInterval | src/app/panels/rangeFacet/module.js:128-135 | "auto" turns automatic intervals on and keeps the interval; any other choice turns them off and becomes the interval |
| Panel.RangeFacet.GetInterval | src/app/panels/rangeFacet/module.js:171-184 | the automatic interval when it applies and a time range exists, else the current one, each with the "10m" fallback; the result is stored |
| Panel.RangeFacet.BeginRequest | src/app/panels/rangeFacet/module.js:201-276 | for each way the request can end: no index, the missing-range throw, a values mode without a field, or an issued request. States the error, interval, loading flag and query ids each leaves |
| Panel.RangeFacet.IngestCounts | src/app/panels/rangeFacet/module.js:381-393 | the series gets the counts list's calls; both hit counters grow by the counts' sum; `range_count` by the number of pairs |
| Panel.RangeFacet.IngestDocs | src/app/panels/rangeFacet/module.js:431-439 | the series gets one call per document, and each document is one hit |
| Panel.RangeFacet.IngestGroups | src/app/panels/rangeFacet/module.js:395-425 | the group entries replace the first entries; the dataset counter grows by the grouped total |
| Panel.RangeFacet.IngestQuery | src/app/panels/rangeFacet/module.js:357-455 | the panel changes exactly as `Decode.IdStep` says |
| Panel.RangeFacet.HandleResult | src/app/panels/rangeFacet/module.js:324-469 | once `$scope.data` is defined or on segment 0, the panel and the `render` emission are exactly `Decode.Handle`'s; a later segment before any data throws at its first read of the data, rendering nothing and changing only the loading flag (and the error for an error response); segment 0 defines the data |
| Panel.RangeFacet.CopyLabels | src/app/panels/rangeFacet/module.js:552-557 | entries before the first one without info get their labels; the rest are untouched; reports whether every entry had info |
| Panel.RangeFacet.AttachPoints | src/app/panels/rangeFacet/module.js:628-630 | every entry gets its series' flot pairs for the same required times |
| Panel.RangeFacet.SmoothAll | src/app/panels/rangeFacet/module.js:635-646 | every entry's points are replaced by the filtered points |
| Panel.RangeFacet.RenderPanel | src/app/panels/rangeFacet/module.js:549-650 | no plot and no change while `$scope.data` is undefined; no plot when an entry lacks info (earlier entries labelled) or the facet range is missing; otherwise the stacking, bar count and x-range options, and every entry labelled with its points aligned on `required_times` and filtered when `lines_smooth` is on |

## Left out

- The Solr request is not modelled: the query strings, the sjs request builder, `populate_modal` and `doSearch` are left out. The only effects of request building kept are the error message and the early return in values mode.
- The promise plumbing is left out: the response is a parameter of `HandleResult`.
- `zoom`, `set_range_filter`, `set_configrations`, `plotselected` handling, the tooltip, the legend and `$.plot` itself are left out. They concern user interaction and drawing, not data.
- Options that are floating-point or purely visual are left out: the bar width, the fill, the line width, `show` flags and the grid.
- `timeSeries.ZeroFilled` is not part of this model. A series is modelled as a value: its options and the sequence of `addValue` calls. Its bucketing, `getOrderedTimes` and `getFlotPairs` are parameters.
- Panel.RangeFacet.IngestQuery: a reused series is updated in place in the source but as a value in the model. The updated series is stored back at its position before anything reads it, and no two entries share a series, so no aliasing is lost.
- `kbn`, `querySrv`, `filterSrv`, `parse_error` and date parsing are parameters. `new Date().getTime()` becomes the `now` parameter.
- JavaScript numbers are modelled as unbounded integers; non-numeric counts and the NaN they would produce are not modelled.
- Decode.WellFormed: count mode assumes an even-length counts list (Solr always sends time/count pairs). An odd list would make the source read past the end and add `undefined` to the hit counters.
- Result payloads are assumed present. A missing `facet_counts`, `grouped` or `response` in the source would throw a TypeError inside the promise callback.
- `get_time_range` storing `$scope.range` and `get_facet_range` storing `$scope.facet_range` are not modelled. The ranges are parameters.
- A missing time range is taken to be null or undefined (the `Thrown` outcome of `Panel.RangeFacet.BeginRequest`). The source tests the range for truthiness (line 176) and then reads `_range.from` (line 216); what `filterSrv.timeRange` returns is not part of this model, so other falsy values are not modelled.
- Debug logging (`console.debug`, `console.log`) is left out.
- Panel.RangeFacet.RenderPanel: an exception thrown by `$.plot` is not modelled, and neither is `scope.plot`.
- The facet ids of a response are fixed to `[0]` in the source. The model keeps that constant (`Decode.FacetIds`) rather than reading them from the response.
