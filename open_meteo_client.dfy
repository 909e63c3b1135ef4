/** The part of `OpenMeteoClient.getCurrentWeather`
    (src/services/weather/openMeteoClient.ts) that is not I/O: from a parsed
    forecast response to the three current-weather values, each the mean of
    the first few hourly samples. */
module OpenMeteoClient {
  import opened Common

  /** The `hourly` object of the response; a missing array is `None`. */
  datatype Hourly = Hourly(
    temperature: Option<seq<real>>,
    relativeHumidity: Option<seq<real>>,
    precipitationProbability: Option<seq<real>>)

  /** The fetched response: its status, and the parsed body's `hourly` object. */
  datatype Response = Response(ok: bool, status: int, hourly: Option<Hourly>)

  /** The weather snapshot; `error` is the raw error recorded for a failed request. */
  datatype WeatherSnapshot = WeatherSnapshot(
    temperatureC: Option<real>,
    humidityPercent: Option<real>,
    rainProbabilityPercent: Option<real>,
    error: Option<string>)

  /** How many leading hours are averaged at most. */
  const MaxWindow := 6

  /** `arr.reduce((acc, v) => acc + v, 0)`, folded from the left. */
  function Sum(s: seq<real>): real {
    if s == [] then 0.0 else Sum(s[..|s| - 1]) + s[|s| - 1]
  }

  /** A sum of samples within [lo, hi] lies within [n * lo, n * hi]. */
  lemma {:induction false} SumBounds(s: seq<real>, lo: real, hi: real)
    requires forall i :: 0 <= i < |s| ==> lo <= s[i] <= hi
    ensures (|s| as real) * lo <= Sum(s) <= (|s| as real) * hi
  {
    if s != [] {
      SumBounds(s[..|s| - 1], lo, hi);
      assert (|s| as real) * lo == ((|s| - 1) as real) * lo + lo;
      assert (|s| as real) * hi == ((|s| - 1) as real) * hi + hi;
    }
  }

  /** `Math.min(6, temps.length)` */
  function WindowSize(temps: seq<real>): (w: nat)
    ensures w <= MaxWindow && w <= |temps|
    ensures w == MaxWindow || w == |temps|
  {
    if |temps| < MaxWindow then |temps| else MaxWindow
  }

  /** The number of leading samples `avg` takes from `arr`. */
  function Taken(arr: seq<real>, window: nat): (n: nat)
    ensures n <= |arr| && n <= window && (n == |arr| || n == window)
  {
    if window < |arr| then window else |arr|
  }

  /** `avg(arr)`: the mean of the first `min(window, arr.length)` samples,
      `null` when that is none. */
  function Avg(arr: seq<real>, window: nat): (r: Option<real>)
    ensures r.None? <==> arr == [] || window == 0
    ensures r.Some? ==> r.value * (Taken(arr, window) as real) == Sum(arr[..Taken(arr, window)])
  {
    if arr == [] then None
    else
      var n := Taken(arr, window);
      if n == 0 then None else Some(Sum(arr[..n]) / (n as real))
  }

  /** An average lies between the least and the greatest sample it averages. */
  lemma AvgWithinSamples(arr: seq<real>, window: nat, lo: real, hi: real)
    requires forall i :: 0 <= i < Taken(arr, window) ==> lo <= arr[i] <= hi
    ensures Avg(arr, window).Some? ==> lo <= Avg(arr, window).value <= hi
  {
    var n := Taken(arr, window);
    if Avg(arr, window).Some? {
      var a := Avg(arr, window).value;
      SumBounds(arr[..n], lo, hi);
      assert (n as real) * lo <= a * (n as real) <= (n as real) * hi;
      assert (n as real) * (a - lo) >= 0.0;
      assert (n as real) * (hi - a) >= 0.0;
    }
  }

  /** Averaging equal samples gives that value back. */
  lemma AvgOfConstant(arr: seq<real>, window: nat, v: real)
    requires forall i :: 0 <= i < |arr| ==> arr[i] == v
    ensures Avg(arr, window).Some? ==> Avg(arr, window).value == v
  {
    AvgWithinSamples(arr, window, v, v);
  }

  /** `getCurrentWeather` once the response is in: every value undefined for a
      failed request; otherwise each series averaged over the temperature window. */
  function CurrentWeather(resp: Response): (w: WeatherSnapshot)
    ensures !resp.ok ==> w.temperatureC.None? && w.humidityPercent.None? && w.rainProbabilityPercent.None?
    ensures !resp.ok ==> w.error == Some("HTTP " + IntToString(resp.status))
    ensures resp.ok ==> w.error.None?
  {
    if !resp.ok then
      WeatherSnapshot(None, None, None, Some("HTTP " + IntToString(resp.status)))
    else
      var hourly := resp.hourly.GetOr(Hourly(None, None, None));
      var temps := hourly.temperature.GetOr([]);
      var hums := hourly.relativeHumidity.GetOr([]);
      var rains := hourly.precipitationProbability.GetOr([]);
      var window := WindowSize(temps);
      WeatherSnapshot(Avg(temps, window), Avg(hums, window), Avg(rains, window), None)
  }

  /** The series a successful response supplies, a missing one as empty. */
  function Series(resp: Response): (s: (seq<real>, seq<real>, seq<real>)) {
    var hourly := resp.hourly.GetOr(Hourly(None, None, None));
    (hourly.temperature.GetOr([]), hourly.relativeHumidity.GetOr([]), hourly.precipitationProbability.GetOr([]))
  }

  /** Without temperature samples the window is empty, so humidity and rain
      are undefined too, however many samples they have. */
  lemma NoTemperatureNoWeather(resp: Response)
    requires resp.ok && Series(resp).0 == []
    ensures CurrentWeather(resp).temperatureC.None?
    ensures CurrentWeather(resp).humidityPercent.None? && CurrentWeather(resp).rainProbabilityPercent.None?
  {
  }

  /** With at least six hours of every series, each value is the mean of the
      first six samples of its series. */
  lemma SixHourMeans(resp: Response)
    requires resp.ok
    requires |Series(resp).0| >= MaxWindow && |Series(resp).1| >= MaxWindow && |Series(resp).2| >= MaxWindow
    ensures CurrentWeather(resp).temperatureC == Some(Sum(Series(resp).0[..MaxWindow]) / (MaxWindow as real))
    ensures CurrentWeather(resp).humidityPercent == Some(Sum(Series(resp).1[..MaxWindow]) / (MaxWindow as real))
    ensures CurrentWeather(resp).rainProbabilityPercent == Some(Sum(Series(resp).2[..MaxWindow]) / (MaxWindow as real))
  {
    var series := Series(resp);
    assert WindowSize(series.0) == MaxWindow;
    assert CurrentWeather(resp) ==
      WeatherSnapshot(Avg(series.0, MaxWindow), Avg(series.1, MaxWindow), Avg(series.2, MaxWindow), None);
    FullWindowMean(series.0, MaxWindow);
    FullWindowMean(series.1, MaxWindow);
    FullWindowMean(series.2, MaxWindow);
  }

  /** A series at least as long as the window is averaged over the window. */
  lemma FullWindowMean(arr: seq<real>, window: nat)
    requires 0 < window <= |arr|
    ensures Avg(arr, window) == Some(Sum(arr[..window]) / (window as real))
  {
  }

  /** A series shorter than the window is averaged over all of its samples. */
  lemma ShortSeriesAveragedWhole(arr: seq<real>, window: nat)
    requires 0 < |arr| <= window
    ensures Avg(arr, window) == Some(Sum(arr) / (|arr| as real))
  {
    assert arr[..|arr|] == arr;
  }
}
