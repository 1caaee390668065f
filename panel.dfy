/** The range-facet panel controller: the interval settings, the start of
    `get_data`, its result handler, and the series part of `render_panel`.
    Each method that changes the panel is proved against the functions of
    modules Decode, Alignment and Display. */
module Panel {
  import opened Common
  import opened TimeSeries
  import opened Alignment
  import opened Display
  import opened Decode

  /** `series.label = series.info.alias; series.color = series.info.color` */
  function Labelled(e: Entry): Entry
    requires e.info.Some?
  {
    e.(plotLabel := e.info.value.alias, plotColor := e.info.value.color)
  }

  /** Each series' `getOrderedTimes()`, in the order of `d`. */
  function OrderedTimes(d: seq<Entry>, ops: SeriesOps): (r: seq<seq<int>>)
    ensures |r| == |d|
    ensures forall k :: 0 <= k < |d| ==> r[k] == ops.orderedTimes(d[k].series)
  {
    seq(|d|, k requires 0 <= k < |d| => ops.orderedTimes(d[k].series))
  }

  /** Position of the first entry whose `info` is undefined, or `|d|`. */
  function FirstMissingInfo(d: seq<Entry>): (r: nat)
    ensures r <= |d|
    ensures forall k :: 0 <= k < r ==> d[k].info.Some?
    ensures r < |d| ==> d[r].info.None?
  {
    if d == [] then 0
    else if d[0].info.None? then 0
    else 1 + FirstMissingInfo(d[1..])
  }

  /** What the renderer shows of one series' points. */
  function Shown(linesSmooth: bool, points: seq<Pair>): seq<Pair> {
    if linesSmooth then Smooth(points) else points
  }

  /** The display switches the renderer reads. */
  datatype Look = Look(stack: bool, percentage: bool, linesSmooth: bool)

  /** The integer part of the options handed to `$.plot`. */
  datatype PlotOptions = PlotOptions(stacking: Stacking, barCount: int, xMin: int, xMax: int)

  /** How a call of `get_data` ends before the response arrives. */
  datatype Request =
    | NoIndices                  // no index to query: nothing is requested
    | Thrown                     // `_range.from` read on a missing time range
    | ConfigError                // values mode without a value field
    | Issued(interval: string)   // request sent; new series will use `interval`

  class RangeFacet {
    var autoInt: bool
    var interval: string
    var error: Option<string>
    var loading: bool
    var queryIds: seq<int>
    var data: seq<Entry>
    /** False while `$scope.data` is still undefined: no response has been
        handled yet, and `data` is then `[]` and never read. */
    var hasData: bool
    var hits: int
    var rangeCount: int
    var runId: Option<int>

    /** The part of the panel the result handler writes. */
    function View(): ScopeState
      reads this
    {
      ScopeState(data, hits, rangeCount, runId, error, loading)
    }

    /** The panel defaults: automatic interval, nominal interval "5m", no data. */
    constructor ()
      ensures autoInt && interval == "5m" && error == None && !loading
      ensures queryIds == [] && !hasData && data == [] && hits == 0 && rangeCount == 0 && runId == None
    {
      autoInt := true;
      interval := "5m";
      error := None;
      loading := false;
      queryIds := [];
      data := [];
      hasData := false;
      hits := 0;
      rangeCount := 0;
      runId := None;
    }

    /** `set_interval`: "auto" switches automatic intervals on and keeps the
        interval; anything else switches them off and becomes the interval. */
    method SetInterval(choice: string)
      modifies this`autoInt, this`interval
      ensures choice == "auto" ==> autoInt && interval == old(interval)
      ensures choice != "auto" ==> !autoInt && interval == choice
    {
      if choice != "auto" {
        autoInt := false;
        interval := choice;
      } else {
        autoInt := true;
      }
    }

    /** `get_interval`: the automatic interval when it applies and a time range
        exists, otherwise the current one; a falsy result becomes "10m". */
    method GetInterval(timeRange: Option<Range>, resolution: int, kbn: Kbn) returns (r: string)
      modifies this`interval
      ensures r == interval && r != ""
      ensures autoInt && timeRange.Some? ==>
        r == IntervalOrDefault(kbn.autoInterval(timeRange.value.from, timeRange.value.to, resolution))
      ensures !(autoInt && timeRange.Some?) ==> r == IntervalOrDefault(old(interval))
    {
      var computed := interval;
      if autoInt {
        if timeRange.Some? {
          computed := kbn.autoInterval(timeRange.value.from, timeRange.value.to, resolution);
        }
      }
      interval := IntervalOrDefault(computed);
      r := interval;
    }

    /** `get_data` up to the request: clears the error, stops when there is no
        index, settles the interval, raises the loading flag, takes the query
        ids, and refuses values mode without a value field. */
    method BeginRequest(indexCount: nat, timeRange: Option<Range>, idsByMode: seq<int>, cfg: Config, kbn: Kbn)
      returns (outcome: Request)
      modifies this`error, this`interval, this`loading, this`queryIds
      ensures indexCount == 0 ==>
        outcome == NoIndices && error == None && interval == old(interval)
        && loading == old(loading) && queryIds == old(queryIds)
      ensures indexCount > 0 && autoInt && timeRange.None? ==>
        outcome == Thrown && error == None && interval == IntervalOrDefault(old(interval))
        && loading == old(loading) && queryIds == old(queryIds)
      ensures indexCount > 0 && !(autoInt && timeRange.None?) ==>
        && loading && queryIds == idsByMode
        && interval == (if autoInt then kbn.autoInterval(timeRange.value.from, timeRange.value.to, cfg.resolution)
                        else IntervalOrDefault(old(interval)))
        && (cfg.mode == "values" && !Truthy(cfg.valueField) ==>
              outcome == ConfigError && error == Some(FieldRequired(cfg.mode)))
        && (!(cfg.mode == "values" && !Truthy(cfg.valueField)) ==>
              && outcome == Issued(IntervalOrDefault(
                   if autoInt then kbn.autoInterval(timeRange.value.from, timeRange.value.to, cfg.resolution)
                   else old(interval)))
              && error == (if |idsByMode| > 0 && cfg.mode != "count" && cfg.valueField.None?
                           then Some(FieldRequired(cfg.mode)) else None))
      ensures outcome.Issued? ==> outcome.interval != ""
    {
      error := None;
      if indexCount == 0 {
        return NoIndices;
      }
      var captured := GetInterval(timeRange, cfg.resolution, kbn);
      if autoInt {
        if timeRange.None? {
          return Thrown;
        }
        interval := kbn.autoInterval(timeRange.value.from, timeRange.value.to, cfg.resolution);
      }
      loading := true;
      queryIds := idsByMode;
      // building one facet per query id: a null value field outside count
      // mode sets the error but only skips that facet
      if |queryIds| > 0 && cfg.mode != "count" && cfg.valueField.None? {
        error := Some(FieldRequired(cfg.mode));
      }
      if cfg.mode == "values" && !Truthy(cfg.valueField) {
        error := Some(FieldRequired(cfg.mode));
        return ConfigError;
      }
      outcome := Issued(captured);
    }


    /** Count mode: consumes the counts list two entries at a time, adding one
        value per pair to the series and the count to both hit counters. */
    method IngestCounts(series: SeriesState, counts: seq<int>) returns (updated: SeriesState, seriesHits: int)
      requires |counts| % 2 == 0
      modifies this`hits, this`rangeCount
      ensures updated == series.(calls := series.calls + CountCalls(counts))
      ensures seriesHits == CountSum(counts)
      ensures hits == old(hits) + CountSum(counts)
      ensures rangeCount == old(rangeCount) + |counts| / 2
    {
      updated := series;
      seriesHits := 0;
      var j := 0;
      while j < |counts|
        invariant 0 <= j <= |counts| && j % 2 == 0
        invariant updated == series.(calls := series.calls + CountCalls(counts[..j]))
        invariant seriesHits == CountSum(counts[..j])
        invariant hits == old(hits) + seriesHits
        invariant rangeCount == old(rangeCount) + j / 2
      {
        assert counts[..j + 2][..j] == counts[..j];
        var time := counts[j];
        j := j + 1;
        var count := counts[j];
        updated := AddValue(updated, time, Num(count));
        seriesHits := seriesHits + count;
        hits := hits + count;
        rangeCount := rangeCount + 1;
        j := j + 1;
      }
      assert counts[..j] == counts;
    }

    /** Values mode: one `addValue` per document, each counting one hit. */
    method IngestDocs(series: SeriesState, docs: seq<Doc>, cfg: Config, toMillis: Field -> int)
      returns (updated: SeriesState, seriesHits: int)
      modifies this`hits
      ensures updated == series.(calls := series.calls + DocCalls(docs, cfg, toMillis))
      ensures seriesHits == |docs|
      ensures hits == old(hits) + |docs|
    {
      updated := series;
      seriesHits := 0;
      var j := 0;
      while j < |docs|
        invariant 0 <= j <= |docs|
        invariant updated == series.(calls := series.calls + DocCalls(docs[..j], cfg, toMillis))
        invariant seriesHits == j
        invariant hits == old(hits) + j
      {
        assert docs[..j + 1][..j] == docs[..j];
        var time := toMillis(Get(docs[j], cfg.timeField));
        var value := Get(docs[j], PropertyKey(cfg.valueField));
        updated := AddValue(updated, time, value);
        seriesHits := seriesHits + 1;
        hits := hits + 1;
        j := j + 1;
      }
      assert docs[..j] == docs;
    }

    /** Grouped values mode: a new series per group, stored at the group's
        position with the group key as alias and the palette colour there. */
    method IngestGroups(groups: seq<Group>, p: Params)
      modifies this`data, this`hits
      ensures data == PutGroups(old(data), groups, p)
      ensures hits == old(hits) + DocTotal(groups)
    {
      var j := 0;
      while j < |groups|
        invariant 0 <= j <= |groups|
        invariant |data| == Max(|old(data)|, j)
        invariant forall k :: 0 <= k < j ==> data[k] == GroupEntry(groups[k], k, p)
        invariant forall k :: j <= k < |data| ==> data[k] == old(data)[k]
        invariant hits == old(hits) + DocTotal(groups[..j])
      {
        assert groups[..j + 1][..j] == groups[..j];
        var series, seriesHits := IngestDocs(NewSeries(p.interval, p.bounds), groups[j].docs, p.cfg, p.env.toMillis);
        data := Put(data, j, PlainEntry(Some(Info(groups[j].groupValue, ColorAt(p.env.colors, j))), series, seriesHits));
        j := j + 1;
      }
      assert groups[..j] == groups;
      ghost var want := PutGroups(old(data), groups, p);
      assert |data| == |want|;
      forall k | 0 <= k < |data| ensures data[k] == want[k] {
      }
    }

    /** The handler's work for the query id `id` at position `i` of the ids:
        a new series on the first segment or past the end of `data`, else the
        one stored at `i` (and `$scope.hits` restarts from zero); then the
        mode decides what is added and where the entry goes. */
    method IngestQuery(i: nat, id: int, p: Params)
      requires WellFormed(p)
      requires Grouped(p.cfg) || i <= |data|
      modifies this`data, this`hits, this`rangeCount
      ensures View() == IdStep(old(View()), i, id, p)
    {
      var series: SeriesState;
      if i >= |data| || p.segment == 0 {
        series := NewSeries(p.interval, p.bounds);
      } else {
        series := data[i].series;
        hits := 0;
      }
      rangeCount := 0;
      var seriesHits := 0;
      if p.cfg.mode == "count" {
        series, seriesHits := IngestCounts(series, p.res.counts);
      } else if p.cfg.mode == "values" {
        if Truthy(p.cfg.groupField) {
          IngestGroups(p.res.groups, p);
        } else {
          series, seriesHits := IngestDocs(series, p.res.docs, p.cfg, p.env.toMillis);
          data := Put(data, i, PlainEntry(QueryInfo(p.env.list, id), series, seriesHits));
        }
      }
      if p.cfg.mode != "values" {
        data := Put(data, i, PlainEntry(QueryInfo(p.env.list, id), series, seriesHits));
      }
    }

    /** The result handler of `get_data` for a response `p.res` to a request
        made under run id `queryId`; `now` is the clock reading that segment 0
        turns into the new run id. Returns whether `render` was emitted.
        Before any segment 0 has defined `$scope.data`, a later segment that
        passes the guard throws on its first read of the data. */
    method HandleResult(queryId: Option<int>, now: int, p: Params) returns (render: bool)
      requires WellFormed(p)
      modifies this`data, this`hasData, this`hits, this`rangeCount, this`runId, this`error, this`loading
      ensures hasData == (old(hasData) || p.segment == 0)
      ensures old(hasData) || p.segment == 0 ==>
        && View() == Handle(old(View()), queryIds, queryId, now, p).state
        && render == Handle(old(View()), queryIds, queryId, now, p).render
      ensures !old(hasData) && p.segment != 0 ==>
        && !render
        && (p.res.error.Some? ==> View() == Handle(old(View()), queryIds, queryId, now, p).state)
        && (p.res.error.None? ==> View() == old(View()).(loading := false))
    {
      loading := false;
      var run := queryId;
      if p.segment == 0 {
        hits := 0;
        data := [];
        hasData := true;
        runId := Some(now);
        run := runId;
      }
      if p.res.error.Some? {
        error := Some(p.env.parseError(p.res.error.value));
        return false;
      }
      if runId == run && FacetsCurrent(queryIds) && !hasData {
        // the first id reads `$scope.data[0]` of an undefined `data`: a TypeError
        // ends the handler before anything is written or rendered
        return false;
      }
      if runId == run && FacetsCurrent(queryIds) {
        ghost var started := View();
        var i := 0;
        while i < |queryIds|
          invariant 0 <= i <= |queryIds|
          invariant hasData && View() == Ingest(started, queryIds[..i], p)
        {
          assert queryIds[..i + 1][..i] == queryIds[..i];
          IngestQuery(i, queryIds[i], p);
          i := i + 1;
        }
        assert queryIds[..i] == queryIds;
        render := true;
      } else {
        render := false;
      }
    }

    /** The first pass of `render_panel`: copies each entry's legend info onto
        it, and gives up at the first entry without info (the property read
        throws and the render returns). Reports whether every entry had info. */
    method CopyLabels() returns (complete: bool)
      modifies this`data
      ensures |data| == |old(data)|
      ensures complete <==> FirstMissingInfo(old(data)) == |old(data)|
      ensures forall k :: 0 <= k < |data| ==>
        data[k] == if k < FirstMissingInfo(old(data)) then Labelled(old(data)[k]) else old(data)[k]
    {
      var k := 0;
      while k < |data|
        invariant 0 <= k <= |data| == |old(data)|
        invariant k <= FirstMissingInfo(old(data))
        invariant forall m :: 0 <= m < k ==> data[m] == Labelled(old(data)[m])
        invariant forall m :: k <= m < |data| ==> data[m] == old(data)[m]
      {
        if data[k].info.None? {
          return false;
        }
        data := data[k := Labelled(data[k])];
        k := k + 1;
      }
      return true;
    }

    /** `scope.data[i].data = scope.data[i].time_series.getFlotPairs(required_times)` for every entry. */
    method AttachPoints(required: seq<int>, ops: SeriesOps)
      modifies this`data
      ensures |data| == |old(data)|
      ensures forall k :: 0 <= k < |data| ==>
        data[k] == old(data)[k].(points := Some(ops.flotPairs(old(data)[k].series, required)))
    {
      var i := 0;
      while i < |data|
        invariant 0 <= i <= |data| == |old(data)|
        invariant forall m :: 0 <= m < i ==>
          data[m] == old(data)[m].(points := Some(ops.flotPairs(old(data)[m].series, required)))
        invariant forall m :: i <= m < |data| ==> data[m] == old(data)[m]
      {
        data := data[i := data[i].(points := Some(ops.flotPairs(data[i].series, required)))];
        i := i + 1;
      }
    }

    /** The `lines_smooth` pass: every entry's points lose their zero values. */
    method SmoothAll()
      requires forall k :: 0 <= k < |data| ==> data[k].points.Some?
      modifies this`data
      ensures |data| == |old(data)|
      ensures forall k :: 0 <= k < |data| ==>
        data[k] == old(data)[k].(points := Some(Smooth(old(data)[k].points.value)))
    {
      var i := 0;
      while i < |data|
        invariant 0 <= i <= |data| == |old(data)|
        invariant forall m :: 0 <= m < i ==>
          data[m] == old(data)[m].(points := Some(Smooth(old(data)[m].points.value)))
        invariant forall m :: i <= m < |data| ==> data[m] == old(data)[m]
      {
        var kept := SmoothPoints(data[i].points.value);
        data := data[i := data[i].(points := Some(kept))];
        i := i + 1;
      }
    }

    /** The series part of `render_panel`: copies legend info onto each entry
        (giving up at the first entry without info), builds the options (giving
        up without a facet range), aligns every series on the same required
        times, and applies the smooth-line filter when it is on. */
    method RenderPanel(facetRange: Option<Range>, look: Look, ops: SeriesOps) returns (plot: Option<PlotOptions>)
      modifies this`data
      ensures |data| == |old(data)|
      ensures !hasData ==> plot == None && data == old(data)
      ensures hasData && FirstMissingInfo(old(data)) < |old(data)| ==>
        plot == None
        && forall k :: 0 <= k < |data| ==>
             data[k] == if k < FirstMissingInfo(old(data)) then Labelled(old(data)[k]) else old(data)[k]
      ensures hasData && FirstMissingInfo(old(data)) == |old(data)| && facetRange.None? ==>
        plot == None && forall k :: 0 <= k < |data| ==> data[k] == Labelled(old(data)[k])
      ensures hasData && FirstMissingInfo(old(data)) == |old(data)| && facetRange.Some? ==>
        && plot == Some(PlotOptions(ResolveStacking(look.stack, look.percentage), BarCount(rangeCount),
                                    facetRange.value.from - 1, facetRange.value.to + 1))
        && forall k :: 0 <= k < |data| ==>
             data[k] == Labelled(old(data)[k]).(points := Some(Shown(look.linesSmooth,
               ops.flotPairs(old(data)[k].series, RequiredTimes(OrderedTimes(old(data), ops))))))
    {
      if !hasData {
        // the labelling loop skips an undefined `data`; reading its length for
        // the required times (or the missing facet range before it) throws,
        // and the catch plots nothing
        return None;
      }
      var complete := CopyLabels();
      if !complete {
        return None;
      }
      if facetRange.None? {
        return None;
      }
      var options := PlotOptions(ResolveStacking(look.stack, look.percentage), BarCount(rangeCount),
                                 facetRange.value.from - 1, facetRange.value.to + 1);
      var required := RequiredTimes(OrderedTimes(data, ops));
      assert OrderedTimes(data, ops) == OrderedTimes(old(data), ops);
      AttachPoints(required, ops);
      if look.linesSmooth {
        SmoothAll();
      }
      plot := Some(options);
    }
  }
}
