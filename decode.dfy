/** What the result handler of `get_data` does to the panel, as functions on
    values. The controller class in module Panel is proved to change its state
    exactly as `Handle` says; the laws about `Handle` are in DecodeLaws. */
module Decode {
  import opened Common
  import opened TimeSeries

  /** One group of a grouped Solr response: its key and its documents. */
  datatype Group = Group(groupValue: Field, docs: seq<Doc>)

  /** A Solr response, with the three shapes the handler reads:
      `facet_counts.facet_ranges[range_field].counts` (times and counts
      interleaved), `grouped[group_field].groups` and `response.docs`;
      `error` holds `error.msg` when the response reports one. */
  datatype SolrResult = SolrResult(
    error: Option<string>,
    counts: seq<int>,
    groups: seq<Group>,
    docs: seq<Doc>)

  /** The panel settings the handler reads; a null setting is None. */
  datatype Config = Config(
    mode: string,
    timeField: string,
    valueField: Option<string>,
    groupField: Option<string>,
    resolution: int)

  /** Collaborators of the handler: `querySrv.list`, `querySrv.colors`,
      `new Date(x).getTime()` and `$scope.parse_error`. */
  datatype Env = Env(
    list: map<int, Info>,
    colors: seq<string>,
    toMillis: Field -> int,
    parseError: string -> string)

  /** What one call of the handler works from: the segment number, the interval
      and facet range captured for new series, the response, the settings and
      the collaborators. */
  datatype Params = Params(
    segment: nat,
    interval: string,
    bounds: Option<Range>,
    res: SolrResult,
    cfg: Config,
    env: Env)

  /** A counts list is consumed two entries at a time; Solr always sends pairs. */
  predicate WellFormed(p: Params) {
    p.cfg.mode == "count" ==> |p.res.counts| % 2 == 0
  }

  /** Values mode with a truthy `group_field`. */
  predicate Grouped(cfg: Config) {
    cfg.mode == "values" && Truthy(cfg.groupField)
  }

  /** One element of `$scope.data`: `{info, time_series, hits}`, plus the
      `label` (plotLabel), `color` (plotColor) and `data` (points) the renderer adds. */
  datatype Entry = Entry(
    info: Option<Info>,
    series: SeriesState,
    hits: int,
    plotLabel: Field,
    plotColor: Field,
    points: Option<seq<Pair>>)

  /** The part of the panel the handler writes. */
  datatype ScopeState = ScopeState(
    data: seq<Entry>,
    hits: int,
    rangeCount: int,
    runId: Option<int>,
    error: Option<string>,
    loading: bool)

  /** What the handler leaves behind, and whether it emitted `render`. */
  datatype Outcome = Outcome(state: ScopeState, render: bool)

  /** `{info, time_series, hits}` as the handler builds it. */
  function PlainEntry(info: Option<Info>, series: SeriesState, hits: int): Entry {
    Entry(info, series, hits, Undefined, Undefined, None)
  }

  /** `querySrv.list[id]`: undefined for an unknown id. */
  function QueryInfo(list: map<int, Info>, id: int): Option<Info> {
    if id in list then Some(list[id]) else None
  }

  /** `querySrv.colors[j]`: undefined past the end of the palette. */
  function ColorAt(colors: seq<string>, j: nat): Field {
    if j < |colors| then Str(colors[j]) else Undefined
  }

  /** A series as `new timeSeries.ZeroFilled(...)` creates it. */
  function FreshSeries(p: Params): SeriesState {
    NewSeries(p.interval, p.bounds)
  }

  /** Count mode: the `addValue` calls made for an interleaved counts list. */
  function CountCalls(counts: seq<int>): (r: seq<Add>)
    requires |counts| % 2 == 0
    ensures |r| == |counts| / 2
  {
    if counts == [] then []
    else CountCalls(counts[..|counts| - 2]) + [Add(counts[|counts| - 2], Num(counts[|counts| - 1]))]
  }

  /** Count mode: the sum of the counts of an interleaved counts list. */
  function CountSum(counts: seq<int>): int
    requires |counts| % 2 == 0
  {
    if counts == [] then 0
    else CountSum(counts[..|counts| - 2]) + counts[|counts| - 1]
  }

  /** Values mode: the `addValue` call made for one document. */
  function DocCall(doc: Doc, cfg: Config, toMillis: Field -> int): Add {
    Add(toMillis(Get(doc, cfg.timeField)), Get(doc, PropertyKey(cfg.valueField)))
  }

  /** Values mode: the `addValue` calls made for a document list. */
  function DocCalls(docs: seq<Doc>, cfg: Config, toMillis: Field -> int): (r: seq<Add>)
    ensures |r| == |docs|
  {
    if docs == [] then []
    else DocCalls(docs[..|docs| - 1], cfg, toMillis) + [DocCall(docs[|docs| - 1], cfg, toMillis)]
  }

  /** Grouped values mode: the number of documents over all groups. */
  function DocTotal(groups: seq<Group>): int {
    if groups == [] then 0
    else DocTotal(groups[..|groups| - 1]) + |groups[|groups| - 1].docs|
  }

  /** Grouped values mode: the entry built for group `j`. */
  function GroupEntry(g: Group, j: nat, p: Params): Entry {
    PlainEntry(
      Some(Info(g.groupValue, ColorAt(p.env.colors, j))),
      FreshSeries(p).(calls := DocCalls(g.docs, p.cfg, p.env.toMillis)),
      |g.docs|)
  }

  function GroupEntries(groups: seq<Group>, p: Params): (r: seq<Entry>)
    ensures |r| == |groups|
    ensures forall j :: 0 <= j < |groups| ==> r[j] == GroupEntry(groups[j], j, p)
  {
    seq(|groups|, j requires 0 <= j < |groups| => GroupEntry(groups[j], j, p))
  }

  /** `$scope.data[j] = ...` for every group in order: the first entries are
      replaced, any later ones stay. */
  function PutGroups(data: seq<Entry>, groups: seq<Group>, p: Params): seq<Entry> {
    GroupEntries(groups, p) + (if |groups| < |data| then data[|groups|..] else [])
  }

  /** The handler's work for the query id at position `i` of `panel.queries.ids`. */
  function IdStep(s: ScopeState, i: nat, id: int, p: Params): (r: ScopeState)
    requires WellFormed(p)
    requires Grouped(p.cfg) || i <= |s.data|
    ensures !Grouped(p.cfg) ==> |r.data| == Max(|s.data|, i + 1)
    ensures r.runId == s.runId && r.error == s.error && r.loading == s.loading
  {
    // a later segment reuses the series already at position i, and zeroes
    // $scope.hits instead of accumulating
    var reuse := p.segment != 0 && i < |s.data|;
    var series := if reuse then s.data[i].series else FreshSeries(p);
    var start := if reuse then 0 else s.hits;
    var info := QueryInfo(p.env.list, id);
    if p.cfg.mode == "count" then
      var counts := p.res.counts;
      s.(data := Put(s.data, i, PlainEntry(info, series.(calls := series.calls + CountCalls(counts)), CountSum(counts))),
         hits := start + CountSum(counts),
         rangeCount := |counts| / 2)
    else if p.cfg.mode == "values" then
      if Truthy(p.cfg.groupField) then
        s.(data := PutGroups(s.data, p.res.groups, p),
           hits := start + DocTotal(p.res.groups),
           rangeCount := 0)
      else
        var docs := p.res.docs;
        s.(data := Put(s.data, i, PlainEntry(info, series.(calls := series.calls + DocCalls(docs, p.cfg, p.env.toMillis)), |docs|)),
           hits := start + |docs|,
           rangeCount := 0)
    else
      s.(data := Put(s.data, i, PlainEntry(info, series, 0)), hits := start, rangeCount := 0)
  }

  /** The handler's loop over `panel.queries.ids`. */
  function Ingest(s: ScopeState, ids: seq<int>, p: Params): (r: ScopeState)
    requires WellFormed(p)
    ensures !Grouped(p.cfg) ==> |r.data| == Max(|s.data|, |ids|)
    ensures r.runId == s.runId && r.error == s.error && r.loading == s.loading
  {
    if ids == [] then s
    else
      var prev := Ingest(s, ids[..|ids| - 1], p);
      IdStep(prev, |ids| - 1, ids[|ids| - 1], p)
  }

  /** The response's facet ids; the source fixes them to `[0]`. */
  const FacetIds: seq<int> := [0]

  /** `_.difference(facetIds, panel.queries.ids).length === 0` */
  predicate FacetsCurrent(ids: seq<int>) {
    forall f :: f in FacetIds ==> f in ids
  }

  /** Segment 0 starts a run: hits and data are cleared and the run id minted
      from the clock reading `now`. */
  function StartRun(s: ScopeState, segment: nat, now: int): ScopeState {
    if segment == 0 then s.(hits := 0, data := [], runId := Some(now)) else s
  }

  /** The whole result handler: `queryId` is the run id the request was made
      under, `ids` is `panel.queries.ids` at the time the response arrives. */
  function Handle(s: ScopeState, ids: seq<int>, queryId: Option<int>, now: int, p: Params): Outcome
    requires WellFormed(p)
  {
    var started := StartRun(s.(loading := false), p.segment, now);
    var run := if p.segment == 0 then Some(now) else queryId;
    if p.res.error.Some? then
      Outcome(started.(error := Some(p.env.parseError(p.res.error.value))), false)
    else if started.runId == run && FacetsCurrent(ids) then
      Outcome(Ingest(started, ids, p), true)
    else
      Outcome(started, false)
  }
}
