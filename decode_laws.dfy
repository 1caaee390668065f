/** Laws of the `get_data` result handler: what one run of segment 0 builds,
    what a later segment does to the series it reuses, and when the handler
    renders at all. */
module DecodeLaws {
  import opened Common
  import opened TimeSeries
  import opened Decode

  /** The `addValue` calls a non-grouped mode makes on each query's series:
      one per counts pair in count mode, one per document in values mode,
      none in any other mode. */
  function ModeCalls(p: Params): seq<Add>
    requires WellFormed(p)
  {
    if p.cfg.mode == "count" then CountCalls(p.res.counts)
    else if p.cfg.mode == "values" then DocCalls(p.res.docs, p.cfg, p.env.toMillis)
    else []
  }

  /** The series-level hit count a non-grouped mode gives each query. */
  function ModeHits(p: Params): int
    requires WellFormed(p)
  {
    if p.cfg.mode == "count" then CountSum(p.res.counts)
    else if p.cfg.mode == "values" then |p.res.docs|
    else 0
  }

  /** `range_count` after a non-grouped query: the number of counts pairs in
      count mode, zero otherwise. */
  function ModeRangeCount(p: Params): int
    requires WellFormed(p)
  {
    if p.cfg.mode == "count" then |p.res.counts| / 2 else 0
  }

  /** Pair `k` of the counts list becomes the `k`-th `addValue` call: the even
      entry is the time, the odd entry after it the count. */
  lemma {:induction false} CountCallsAt(counts: seq<int>, k: nat)
    requires |counts| % 2 == 0 && k < |counts| / 2
    ensures CountCalls(counts)[k] == Add(counts[2 * k], Num(counts[2 * k + 1]))
  {
    var init := counts[..|counts| - 2];
    if k < |init| / 2 {
      CountCallsAt(init, k);
    }
  }

  /** Document `k` becomes the `k`-th `addValue` call. */
  lemma {:induction false} DocCallsAt(docs: seq<Doc>, cfg: Config, toMillis: Field -> int, k: nat)
    requires k < |docs|
    ensures DocCalls(docs, cfg, toMillis)[k] == DocCall(docs[k], cfg, toMillis)
  {
    var init := docs[..|docs| - 1];
    if k < |init| {
      DocCallsAt(init, cfg, toMillis, k);
    }
  }

  /** The grouped total adds up the documents of every group. */
  lemma {:induction false} DocTotalAppend(a: seq<Group>, b: seq<Group>)
    ensures DocTotal(a + b) == DocTotal(a) + DocTotal(b)
    decreases |b|
  {
    if b != [] {
      var binit := b[..|b| - 1];
      DocTotalAppend(a, binit);
      assert (a + b)[..|a + b| - 1] == a + binit;
    } else {
      assert a + b == a;
    }
  }

  lemma MultiplyStep(n: nat, h: int)
    ensures n * h + h == (n + 1) * h
  {
  }

  /** One query id on segment 0 outside grouped values mode appends a new
      series at the end of the data. */
  lemma FreshStep(prev: ScopeState, id: int, p: Params)
    requires WellFormed(p) && !Grouped(p.cfg) && p.segment == 0
    ensures IdStep(prev, |prev.data|, id, p) == prev.(
      data := prev.data + [PlainEntry(QueryInfo(p.env.list, id), FreshSeries(p).(calls := ModeCalls(p)), ModeHits(p))],
      hits := prev.hits + ModeHits(p),
      rangeCount := ModeRangeCount(p))
  {
    assert FreshSeries(p).calls + ModeCalls(p) == ModeCalls(p);
  }

  /** Starting from no data on segment 0 outside grouped values mode, the
      loop stores one new series per query id at the id's position, each fed
      the same calls, and the panel's hit counter adds each series' hits. */
  lemma {:induction false} FirstSegmentSeries(s: ScopeState, ids: seq<int>, p: Params)
    requires WellFormed(p) && !Grouped(p.cfg) && p.segment == 0 && s.data == []
    ensures var r := Ingest(s, ids, p);
      && |r.data| == |ids|
      && (forall k :: 0 <= k < |ids| ==>
            r.data[k] == PlainEntry(QueryInfo(p.env.list, ids[k]), FreshSeries(p).(calls := ModeCalls(p)), ModeHits(p)))
      && r.hits == s.hits + |ids| * ModeHits(p)
      && r.rangeCount == (if ids == [] then s.rangeCount else ModeRangeCount(p))
  {
    if ids != [] {
      var n := |ids| - 1;
      var init := ids[..n];
      FirstSegmentSeries(s, init, p);
      var prev := Ingest(s, init, p);
      FreshStep(prev, ids[n], p);
      assert Ingest(s, ids, p) == IdStep(prev, n, ids[n], p);
      forall k | 0 <= k < n ensures init[k] == ids[k] {
      }
      MultiplyStep(n, ModeHits(p));
    }
  }

  /** Starting from no data on segment 0 in grouped values mode, every query
      id rewrites the same group entries, and the panel's hit counter adds the
      grouped total once per id. */
  lemma {:induction false} FirstSegmentGroups(s: ScopeState, ids: seq<int>, p: Params)
    requires WellFormed(p) && Grouped(p.cfg) && p.segment == 0 && s.data == []
    ensures var r := Ingest(s, ids, p);
      && r.data == (if ids == [] then [] else GroupEntries(p.res.groups, p))
      && r.hits == s.hits + |ids| * DocTotal(p.res.groups)
      && r.rangeCount == (if ids == [] then s.rangeCount else 0)
  {
    if ids != [] {
      var n := |ids| - 1;
      FirstSegmentGroups(s, ids[..n], p);
      var prev := Ingest(s, ids[..n], p);
      var r := Ingest(s, ids, p);
      assert r == IdStep(prev, n, ids[n], p);
      var entries := GroupEntries(p.res.groups, p);
      assert PutGroups(prev.data, p.res.groups, p) == entries by {
        if n > 0 {
          assert entries + [] == entries;
        }
      }
      MultiplyStep(n, DocTotal(p.res.groups));
    }
  }

  /** On a later segment outside grouped values mode, each query id reuses the
      series stored at its position and extends it with the new calls; entries
      past the ids are untouched; the panel's hit counter is reset for each
      reused series, so it ends at one series' hits instead of accumulating. */
  lemma {:induction false} LaterSegmentSeries(s: ScopeState, ids: seq<int>, p: Params)
    requires WellFormed(p) && !Grouped(p.cfg) && p.segment != 0 && |ids| <= |s.data|
    ensures var r := Ingest(s, ids, p);
      && |r.data| == |s.data|
      && (forall k :: 0 <= k < |ids| ==>
            r.data[k] == PlainEntry(QueryInfo(p.env.list, ids[k]),
                                    s.data[k].series.(calls := s.data[k].series.calls + ModeCalls(p)), ModeHits(p)))
      && (forall k :: |ids| <= k < |s.data| ==> r.data[k] == s.data[k])
      && r.hits == (if ids == [] then s.hits else ModeHits(p))
      && r.rangeCount == (if ids == [] then s.rangeCount else ModeRangeCount(p))
  {
    if ids != [] {
      var n := |ids| - 1;
      var init := ids[..n];
      LaterSegmentSeries(s, init, p);
      var prev := Ingest(s, init, p);
      var r := Ingest(s, ids, p);
      assert r == IdStep(prev, n, ids[n], p);
      assert prev.data[n] == s.data[n];
      forall k | 0 <= k < |ids|
        ensures r.data[k] == PlainEntry(QueryInfo(p.env.list, ids[k]),
                                        s.data[k].series.(calls := s.data[k].series.calls + ModeCalls(p)), ModeHits(p))
      {
        if k < n {
          assert init[k] == ids[k];
        }
      }
    }
  }

  /** The handler emits `render` exactly when the response carries no error,
      the run is current (always on segment 0, which mints a new run id; on a
      later segment when the panel's run id is the request's), and the fixed
      facet id 0 is among the query ids. It always lowers the loading flag. */
  lemma RenderExactlyWhenCurrent(s: ScopeState, ids: seq<int>, queryId: Option<int>, now: int, p: Params)
    requires WellFormed(p)
    ensures var o := Handle(s, ids, queryId, now, p);
      && (o.render <==> p.res.error.None? && (p.segment == 0 || s.runId == queryId) && 0 in ids)
      && !o.state.loading
      && (p.segment == 0 ==> o.state.runId == Some(now))
      && (p.segment != 0 ==> o.state.runId == s.runId)
  {
  }

  /** An error response sets the parsed message and leaves the data alone: a
      later segment keeps every series and the hit counter, segment 0 leaves
      the cleared state it started. */
  lemma ErrorResultKeepsData(s: ScopeState, ids: seq<int>, queryId: Option<int>, now: int, p: Params)
    requires WellFormed(p) && p.res.error.Some?
    ensures var o := Handle(s, ids, queryId, now, p);
      && !o.render
      && o.state.error == Some(p.env.parseError(p.res.error.value))
      && o.state.rangeCount == s.rangeCount
      && (p.segment != 0 ==> o.state.data == s.data && o.state.hits == s.hits)
      && (p.segment == 0 ==> o.state.data == [] && o.state.hits == 0)
  {
  }

  /** A later segment answering a request from an older run changes nothing
      but the loading flag. */
  lemma StaleResultDropped(s: ScopeState, ids: seq<int>, queryId: Option<int>, now: int, p: Params)
    requires WellFormed(p) && p.segment != 0 && p.res.error.None? && s.runId != queryId
    ensures Handle(s, ids, queryId, now, p) == Outcome(s.(loading := false), false)
  {
  }

  /** A response whose query ids no longer include the fixed facet id 0 is
      not decoded: the data and counters stay as the segment-0 reset (if any)
      left them, and nothing is rendered. */
  lemma FacetGuardKeepsData(s: ScopeState, ids: seq<int>, queryId: Option<int>, now: int, p: Params)
    requires WellFormed(p) && p.res.error.None? && 0 !in ids
    ensures Handle(s, ids, queryId, now, p) == Outcome(StartRun(s.(loading := false), p.segment, now), false)
    ensures p.segment != 0 ==> Handle(s, ids, queryId, now, p).state == s.(loading := false)
    ensures p.segment == 0 ==> Handle(s, ids, queryId, now, p).state.data == [] && Handle(s, ids, queryId, now, p).state.hits == 0
  {
  }

  /** A successful segment 0 outside grouped values mode: one new series per
      query id, each fed the response, and `$scope.hits` is the sum of the
      series' hits. */
  lemma FirstSegmentResult(s: ScopeState, ids: seq<int>, queryId: Option<int>, now: int, p: Params)
    requires WellFormed(p) && !Grouped(p.cfg) && p.segment == 0 && p.res.error.None? && 0 in ids
    ensures var o := Handle(s, ids, queryId, now, p);
      && o.render
      && |o.state.data| == |ids|
      && (forall k :: 0 <= k < |ids| ==>
            o.state.data[k] == PlainEntry(QueryInfo(p.env.list, ids[k]), FreshSeries(p).(calls := ModeCalls(p)), ModeHits(p)))
      && o.state.hits == |ids| * ModeHits(p)
      && o.state.rangeCount == ModeRangeCount(p)
      && o.state.runId == Some(now)
  {
    var started := StartRun(s.(loading := false), p.segment, now);
    FirstSegmentSeries(started, ids, p);
  }

  /** A successful segment 0 in grouped values mode: the entries are the
      groups, and `$scope.hits` counts the grouped total once per query id. */
  lemma FirstSegmentGroupedResult(s: ScopeState, ids: seq<int>, queryId: Option<int>, now: int, p: Params)
    requires WellFormed(p) && Grouped(p.cfg) && p.segment == 0 && p.res.error.None? && 0 in ids
    ensures var o := Handle(s, ids, queryId, now, p);
      && o.render
      && o.state.data == GroupEntries(p.res.groups, p)
      && o.state.hits == |ids| * DocTotal(p.res.groups)
      && o.state.rangeCount == 0
  {
    var started := StartRun(s.(loading := false), p.segment, now);
    FirstSegmentGroups(started, ids, p);
  }
}
