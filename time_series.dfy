/** The panel's view of `timeSeries.ZeroFilled`. Its bucketing and zero-fill
    are not part of this model: a series is known only by the options it was
    built with and the `addValue` calls made on it, and its two queries are
    supplied from outside as functions of that state. */
module TimeSeries {
  import opened Common

  /** One `addValue(time, value)` call. */
  datatype Add = Add(time: int, value: Field)

  /** One `[time, value]` pair as `getFlotPairs` emits it. */
  datatype Pair = Pair(time: int, value: Field)

  /** Everything observable of a series: its interval, its start and end
      (absent when the facet range was), and the calls made on it in order. */
  datatype SeriesState = SeriesState(interval: string, bounds: Option<Range>, calls: seq<Add>)

  /** `new timeSeries.ZeroFilled({interval, start_date, end_date, fill_style: 'minimal'})` */
  function NewSeries(interval: string, bounds: Option<Range>): SeriesState {
    SeriesState(interval, bounds, [])
  }

  /** `addValue(time, value)`: recorded after the earlier calls; the options stay. */
  function AddValue(s: SeriesState, time: int, value: Field): SeriesState {
    s.(calls := s.calls + [Add(time, value)])
  }

  /** `getOrderedTimes()` and `getFlotPairs(required_times)`, left abstract. */
  datatype SeriesOps = SeriesOps(
    orderedTimes: SeriesState -> seq<int>,
    flotPairs: (SeriesState, seq<int>) -> seq<Pair>)
}
