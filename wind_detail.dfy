/** The wind-turbine detail page: one turbine with its measurements and forecasts,
    fetched together, projected into a chart and two tables. */
module WindTurbineDetail {
  import opened Wrappers
  import opened Seqs
  import Chart
  import Assets
  import WindPage

  /** One hourly reading (`power_ac_W` in watts). */
  datatype WindMeasurement = WindMeasurement(id: int, createdAt: int, powerAcW: real, windSpeed: real, rho: real)

  datatype WindForecast = WindForecast(
    id: int,
    targetTime: int,
    powerKwForecast: Option<real>,
    windSpeedForecast: Option<real>)

  /** A chart point carries either the measured fields or the forecast fields, never both. */
  datatype ChartPoint =
    | Measured(time: int, actualPower: real, windSpeed: real)
    | Forecast(time: int, forecastPower: Option<real>, windSpeedForecast: Option<real>)

  const LoadFailed: string := "Не удалось загрузить данные турбины"

  function MeasuredPoint(m: WindMeasurement): ChartPoint
  {
    Measured(m.createdAt, m.powerAcW / 1000.0, m.windSpeed)
  }

  function ForecastPoint(f: WindForecast): ChartPoint
  {
    Forecast(f.targetTime, f.powerKwForecast, f.windSpeedForecast)
  }

  function TargetTime(f: WindForecast): int
  {
    f.targetTime
  }

  /** `forecasts.sort((a, b) => new Date(a.target_time) - new Date(b.target_time))`. */
  function SortForecasts(fs: seq<WindForecast>): seq<WindForecast>
  {
    SortBy(fs, TargetTime)
  }

  /** The measured run of the chart: the newest (at most 24) measurements in their
      order, with the power converted from W to kW. */
  function MeasuredRun(ms: seq<WindMeasurement>): (run: seq<ChartPoint>)
    ensures |run| == Min(Chart.Window, |ms|)
    ensures forall i :: 0 <= i < |run| ==>
              run[i] == Measured(ms[|ms| - |run| + i].createdAt, ms[|ms| - |run| + i].powerAcW / 1000.0, ms[|ms| - |run| + i].windSpeed)
  {
    var recent := Last(ms, Chart.Window);
    seq(|recent|, i requires 0 <= i < |recent| => MeasuredPoint(recent[i]))
  }

  /** The forecast run of the chart: the earliest (at most 24) forecasts, in
      non-decreasing target time, each one of the fetched forecasts. */
  function ForecastRun(fs: seq<WindForecast>): (run: seq<ChartPoint>)
    ensures |run| == Min(Chart.Window, |fs|)
    ensures forall j :: 0 <= j < |run| ==> run[j] == ForecastPoint(Chart.Upcoming(fs, TargetTime)[j])
    ensures forall j :: 0 <= j < |run| ==> run[j].Forecast?
    ensures forall j, l :: 0 <= j < l < |run| ==> run[j].time <= run[l].time
  {
    var upcoming := Chart.Upcoming(fs, TargetTime);
    seq(|upcoming|, j requires 0 <= j < |upcoming| => ForecastPoint(upcoming[j]))
  }

  /** Every point of the forecast run shows one of the fetched forecasts. */
  lemma ForecastRunFromFetched(fs: seq<WindForecast>, j: nat)
    requires j < |ForecastRun(fs)|
    ensures Chart.Upcoming(fs, TargetTime)[j] in fs
  {
    var upcoming := Chart.Upcoming(fs, TargetTime);
    assert upcoming[j] in multiset(upcoming);
  }

  /** `chartData`: the measured run followed by the forecast run, as two separate
      runs of points. */
  function ChartData(ms: seq<WindMeasurement>, fs: seq<WindForecast>): (chart: seq<ChartPoint>)
    ensures |chart| == Min(Chart.Window, |ms|) + Min(Chart.Window, |fs|)
    ensures chart[..Min(Chart.Window, |ms|)] == MeasuredRun(ms)
    ensures chart[Min(Chart.Window, |ms|)..] == ForecastRun(fs)
  {
    MeasuredRun(ms) + ForecastRun(fs)
  }

  /** The chart never merges a measurement with a forecast: its first min(24, n)
      points are all measured and every point after them is a forecast, whatever
      their times. */
  lemma {:induction false} ChartDoesNotMerge(ms: seq<WindMeasurement>, fs: seq<WindForecast>)
    ensures forall i :: 0 <= i < Min(Chart.Window, |ms|) ==> ChartData(ms, fs)[i].Measured?
    ensures forall i :: Min(Chart.Window, |ms|) <= i < |ChartData(ms, fs)| ==> ChartData(ms, fs)[i].Forecast?
  {
    var measured := MeasuredRun(ms);
    var forecast := ForecastRun(fs);
    var chart := ChartData(ms, fs);
    assert chart == measured + forecast;
    forall i | 0 <= i < |measured| ensures chart[i].Measured? {
      assert chart[i] == measured[i];
    }
    forall i | |measured| <= i < |chart| ensures chart[i].Forecast? {
      assert chart[i] == forecast[i - |measured|];
    }
  }

  /** `displayPower`: the rated power of an active turbine, 0 otherwise. */
  function DisplayPower(t: WindPage.WindTurbine): (p: Option<real>)
    ensures t.status == Assets.ActiveStatus ==> p == t.power
    ensures t.status != Assets.ActiveStatus ==> p == Some(0.0)
  {
    if t.status == Assets.ActiveStatus then t.power else Some(0.0)
  }

  /** The detail page's current power agrees with what the list page counts for the
      same turbine in its active total. */
  lemma DisplayPowerMatchesListTotal(t: WindPage.WindTurbine)
    ensures OrZero(DisplayPower(t)) == WindPage.TotalActivePower([t])
  {
    WindPage.TotalActivePowerOfAdded([], t);
    assert [] + [t] == [t];
  }

  /** `forecasts.slice(0, 10)`. */
  function ForecastRows(fs: seq<WindForecast>): (rows: seq<WindForecast>)
    ensures |rows| == Min(Chart.TableWindow, |fs|) && rows == fs[..|rows|]
  {
    First(fs, Chart.TableWindow)
  }

  /** What the component renders, checked in this order: loading, error, missing turbine. */
  datatype View =
    | LoadingView
    | ErrorView(message: string)
    | NotFoundView
    | TurbineView(
        turbine: WindPage.WindTurbine,
        displayPower: Option<real>,
        chart: Option<seq<ChartPoint>>,
        measurementRows: Option<seq<WindMeasurement>>,
        forecastRows: Option<seq<WindForecast>>)

  /** The view for a state whose forecasts are already in display order. */
  function ViewOf(turbine: Option<WindPage.WindTurbine>, ms: seq<WindMeasurement>, fs: seq<WindForecast>,
                  loading: bool, error: string): (v: View)
    ensures v.LoadingView? <==> loading
    ensures v.ErrorView? <==> !loading && error != ""
    ensures v.NotFoundView? <==> !loading && error == "" && turbine.None?
    ensures v.TurbineView? ==> v.turbine == turbine.value && v.displayPower == DisplayPower(turbine.value)
    ensures v.TurbineView? ==> (v.chart.Some? <==> ms != [] || fs != [])
    ensures v.TurbineView? ==> (v.measurementRows.Some? <==> ms != [])
    ensures v.TurbineView? ==> (v.forecastRows.Some? <==> fs != [])
    ensures v.TurbineView? && v.chart.Some? ==> v.chart.value == ChartData(ms, fs)
    ensures v.TurbineView? && v.measurementRows.Some? ==> v.measurementRows.value == Chart.RecentRows(ms)
    ensures v.TurbineView? && v.forecastRows.Some? ==> v.forecastRows.value == ForecastRows(fs)
  {
    if loading then LoadingView
    else if error != "" then ErrorView(error)
    else if turbine.None? then NotFoundView
    else TurbineView(
      turbine.value,
      DisplayPower(turbine.value),
      if ms != [] || fs != [] then Some(ChartData(ms, fs)) else None,
      if ms != [] then Some(Chart.RecentRows(ms)) else None,
      if fs != [] then Some(ForecastRows(fs)) else None)
  }

  /** The component state of the page. */
  class WindDetailPage {
    var turbine: Option<WindPage.WindTurbine>
    var measurements: seq<WindMeasurement>
    var forecasts: seq<WindForecast>
    var loading: bool
    var error: string

    constructor ()
      ensures turbine == None && measurements == [] && forecasts == [] && loading && error == ""
    {
      turbine := None;
      measurements := [];
      forecasts := [];
      loading := true;
      error := "";
    }

    /** `fetchData`: the three requests are joined; only when all three succeed are the
        turbine and its lists stored, any failure sets the error instead; loading ends
        either way. */
    method FetchData(turbineRes: Outcome<Option<WindPage.WindTurbine>>,
                     measurementsRes: Outcome<Option<seq<WindMeasurement>>>,
                     forecastsRes: Outcome<Option<seq<WindForecast>>>)
      modifies this`turbine, this`measurements, this`forecasts, this`loading, this`error
      ensures !loading
      ensures turbineRes.Success? && measurementsRes.Success? && forecastsRes.Success? ==>
                && turbine == turbineRes.data
                && measurements == OrEmpty(measurementsRes.data)
                && forecasts == OrEmpty(forecastsRes.data)
                && error == old(error)
      ensures turbineRes.Failure? || measurementsRes.Failure? || forecastsRes.Failure? ==>
                && turbine == old(turbine) && measurements == old(measurements) && forecasts == old(forecasts)
                && error == LoadFailed
    {
      if turbineRes.Success? && measurementsRes.Success? && forecastsRes.Success? {
        turbine := turbineRes.data;
        measurements := OrEmpty(measurementsRes.data);
        forecasts := OrEmpty(forecastsRes.data);
      } else {
        error := LoadFailed;
      }
      loading := false;
    }

    /** One render. Building `chartData` sorts the `forecasts` state array in place, so
        the forecast table below it, and every later render, sees the sorted order. */
    method Render() returns (view: View)
      modifies this`forecasts
      ensures forecasts == SortForecasts(old(forecasts))
      ensures view == ViewOf(turbine, measurements, forecasts, loading, error)
    {
      forecasts := SortForecasts(forecasts);
      view := ViewOf(turbine, measurements, forecasts, loading, error);
    }
  }

  /** A second render finds the forecasts sorted and leaves them as they are, so it
      shows the same chart as the first. */
  lemma RenderIsStable(fs: seq<WindForecast>)
    ensures SortForecasts(SortForecasts(fs)) == SortForecasts(fs)
    ensures forall ms :: ChartData(ms, SortForecasts(fs)) == ChartData(ms, fs)
  {
    SortSortedIsIdentity(SortForecasts(fs), TargetTime);
  }
}
