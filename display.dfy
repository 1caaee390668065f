/** The panel's small display decisions: interval labels and fallbacks, the
    x-axis time format, the bar count, and how `stack` and `percentage`
    resolve into the plotting library's stacking options. */
module Display {
  import opened Common

  /** The interval `get_interval` falls back to when the computed one is falsy. */
  const DefaultInterval: string := "10m"

  /** `interval || '10m'`: the empty string stands for every falsy interval. */
  function IntervalOrDefault(interval: string): (r: string)
    ensures r != ""
    ensures interval != "" ==> r == interval
    ensures interval == "" ==> r == DefaultInterval
  {
    if interval == "" then DefaultInterval else interval
  }

  /** `interval_label`: marks the interval in use when it was chosen automatically. */
  function IntervalLabel(autoInt: bool, current: string, interval: string): (r: string)
    ensures autoInt && interval == current ==> r == interval + " (auto)"
    ensures !(autoInt && interval == current) ==> r == interval
    ensures |r| >= |interval| && r[..|interval|] == interval
  {
    if autoInt && interval == current then interval + " (auto)" else interval
  }

  /** `time_format`: the x-axis label format for an interval, from the number of
      seconds `kbn.interval_to_seconds` gives for it. */
  function TimeFormat(kbn: Kbn, interval: string): (r: string)
    ensures var secs := kbn.intervalToSeconds(interval);
      && (secs >= 2628000 ==> r == "%m/%y")
      && (86400 <= secs < 2628000 ==> r == "%m/%d/%y")
      && (60 <= secs < 86400 ==> r == "%H:%M<br>%m/%d")
      && (secs < 60 ==> r == "%H:%M:%S")
  {
    var secs := kbn.intervalToSeconds(interval);
    if secs >= 2628000 then "%m/%y"
    else if secs >= 86400 then "%m/%d/%y"
    else if secs >= 60 then "%H:%M<br>%m/%d"
    else "%H:%M:%S"
  }

  /** The formats from finest to coarsest. */
  const Formats: seq<string> := ["%H:%M:%S", "%H:%M<br>%m/%d", "%m/%d/%y", "%m/%y"]

  function FormatRank(format: string): nat {
    if format == Formats[3] then 3
    else if format == Formats[2] then 2
    else if format == Formats[1] then 1
    else 0
  }

  /** A longer interval never gets a finer format. */
  lemma TimeFormatCoarsens(kbn: Kbn, shorter: string, longer: string)
    requires kbn.intervalToSeconds(shorter) <= kbn.intervalToSeconds(longer)
    ensures TimeFormat(kbn, shorter) in Formats && TimeFormat(kbn, longer) in Formats
    ensures FormatRank(TimeFormat(kbn, shorter)) <= FormatRank(TimeFormat(kbn, longer))
  {
  }

  /** The bar count `range_count > 15 ? range_count : 15` the bar width is divided by. */
  function BarCount(rangeCount: int): (r: int)
    ensures r >= 15 && r >= rangeCount
    ensures r == 15 || r == rangeCount
  {
    if rangeCount > 15 then rangeCount else 15
  }

  /** The stacking options handed to the plotting library. `stack` true means
      the option `true`, false means `null`; `yMax` None means `null`. */
  datatype Stacking = Stacking(stackPercent: bool, stack: bool, yMax: Option<int>)

  /** `stackpercent: stack ? percentage : false`, `stack: percentage ? null :
      (stack ? true : null)` and the y-axis `max: percentage && stack ? 100 : null`. */
  function ResolveStacking(stack: bool, percentage: bool): (r: Stacking)
    ensures r.stackPercent <==> stack && percentage
    ensures r.stack <==> stack && !percentage
    ensures r.yMax.Some? <==> r.stackPercent
    ensures r.yMax.Some? ==> r.yMax.value == 100
    ensures !(r.stack && r.stackPercent)
  {
    Stacking(
      if stack then percentage else false,
      if percentage then false else stack,
      if percentage && stack then Some(100) else None)
  }

  /** The panel's error message for a mode that needs a value field. */
  function FieldRequired(mode: string): (msg: string)
    ensures mode == "values" ==> msg == "In values mode a field must be specified"
  {
    "In " + mode + " mode a field must be specified"
  }
}
