/** The solar-system detail page: one system with its measurements, forecasts and
    panels, fetched together, projected into a power chart, an irradiance chart and a
    table of recent measurements. */
module SolarSystemDetail {
  import opened Wrappers
  import opened Seqs
  import Chart
  import Assets
  import SolarPage

  /** One hourly reading: AC power in W, irradiances in W/m², air temperature in °C. */
  datatype SolarMeasurement = SolarMeasurement(
    id: int,
    createdAt: int,
    acPower: Option<real>,
    ghi: Option<real>,
    poaGlobal: Option<real>,
    tempAir: Option<real>)

  /** A forecast is placed at its target time, or at its own timestamp when it has none. */
  datatype SolarForecast = SolarForecast(id: int, targetTime: Option<int>, timestamp: int, predictedPower: Option<real>)

  datatype SolarPanel = SolarPanel(id: int, power: Option<real>, status: string)

  /** A measured point carries an irradiance; a forecast point has none. */
  datatype ChartPoint =
    | Measured(time: int, actualPower: real, irradiance: real)
    | Forecast(time: int, forecastPower: real)

  const LoadFailed: string := "Не удалось загрузить данные системы"

  /** `x ? x / 1000 : 0`: watts to kilowatts, a missing or zero reading giving 0. */
  function Kilowatts(x: Option<real>): (kw: real)
    ensures Truthy(x) ==> kw == x.value / 1000.0
    ensures !Truthy(x) ==> kw == 0.0
  {
    if Truthy(x) then x.value / 1000.0 else 0.0
  }

  /** `m.ghi || m.poa_global || 0`. */
  function Irradiance(m: SolarMeasurement): (e: real)
    ensures Truthy(m.ghi) ==> e == m.ghi.value
    ensures !Truthy(m.ghi) && Truthy(m.poaGlobal) ==> e == m.poaGlobal.value
    ensures !Truthy(m.ghi) && !Truthy(m.poaGlobal) ==> e == 0.0
  {
    if Truthy(m.ghi) then m.ghi.value else OrZero(m.poaGlobal)
  }

  function MeasuredPoint(m: SolarMeasurement): ChartPoint
  {
    Measured(m.createdAt, Kilowatts(m.acPower), Irradiance(m))
  }

  /** `f.target_time || f.timestamp`. */
  function ForecastTime(f: SolarForecast): int
  {
    if f.targetTime.Some? then f.targetTime.value else f.timestamp
  }

  function ForecastPoint(f: SolarForecast): ChartPoint
  {
    Forecast(ForecastTime(f), Kilowatts(f.predictedPower))
  }

  /** `forecasts.sort(...)` by the time each forecast is placed at. */
  function SortForecasts(fs: seq<SolarForecast>): seq<SolarForecast>
  {
    SortBy(fs, ForecastTime)
  }

  /** The measured run of the chart: the newest (at most 24) measurements in their order. */
  function MeasuredRun(ms: seq<SolarMeasurement>): (run: seq<ChartPoint>)
    ensures |run| == Min(Chart.Window, |ms|)
    ensures forall i :: 0 <= i < |run| ==> run[i] == MeasuredPoint(ms[|ms| - |run| + i])
  {
    var recent := Last(ms, Chart.Window);
    seq(|recent|, i requires 0 <= i < |recent| => MeasuredPoint(recent[i]))
  }

  /** The forecast run of the chart: the earliest (at most 24) forecasts, in
      non-decreasing time, each one of the fetched forecasts. */
  function ForecastRun(fs: seq<SolarForecast>): (run: seq<ChartPoint>)
    ensures |run| == Min(Chart.Window, |fs|)
    ensures forall j :: 0 <= j < |run| ==> run[j] == ForecastPoint(Chart.Upcoming(fs, ForecastTime)[j])
    ensures forall j :: 0 <= j < |run| ==> run[j].Forecast?
    ensures forall j, l :: 0 <= j < l < |run| ==> run[j].time <= run[l].time
  {
    var upcoming := Chart.Upcoming(fs, ForecastTime);
    seq(|upcoming|, j requires 0 <= j < |upcoming| => ForecastPoint(upcoming[j]))
  }

  /** Every point of the forecast run shows one of the fetched forecasts. */
  lemma ForecastRunFromFetched(fs: seq<SolarForecast>, j: nat)
    requires j < |ForecastRun(fs)|
    ensures Chart.Upcoming(fs, ForecastTime)[j] in fs
  {
    var upcoming := Chart.Upcoming(fs, ForecastTime);
    assert upcoming[j] in multiset(upcoming);
  }

  /** `chartData`: the measured run followed by the forecast run, as two separate
      runs of points. */
  function ChartData(ms: seq<SolarMeasurement>, fs: seq<SolarForecast>): (chart: seq<ChartPoint>)
    ensures |chart| == Min(Chart.Window, |ms|) + Min(Chart.Window, |fs|)
    ensures chart[..Min(Chart.Window, |ms|)] == MeasuredRun(ms)
    ensures chart[Min(Chart.Window, |ms|)..] == ForecastRun(fs)
  {
    MeasuredRun(ms) + ForecastRun(fs)
  }

  /** `chartData.filter(d => d.irradiance !== undefined)`. */
  function WithIrradiance(points: seq<ChartPoint>): (r: seq<ChartPoint>)
    ensures |r| <= |points|
    ensures forall i :: 0 <= i < |r| ==> r[i].Measured?
  {
    if points == [] then []
    else if points[0].Measured? then [points[0]] + WithIrradiance(points[1..])
    else WithIrradiance(points[1..])
  }

  lemma {:induction false} WithIrradianceConcat(a: seq<ChartPoint>, b: seq<ChartPoint>)
    ensures WithIrradiance(a + b) == WithIrradiance(a) + WithIrradiance(b)
  {
    if a == [] {
      assert a + b == b;
    } else {
      assert (a + b)[1..] == a[1..] + b;
      WithIrradianceConcat(a[1..], b);
    }
  }

  lemma {:induction false} WithIrradianceKeepsMeasured(points: seq<ChartPoint>)
    requires forall i :: 0 <= i < |points| ==> points[i].Measured?
    ensures WithIrradiance(points) == points
  {
    if points != [] {
      WithIrradianceKeepsMeasured(points[1..]);
    }
  }

  lemma {:induction false} WithIrradianceDropsForecasts(points: seq<ChartPoint>)
    requires forall i :: 0 <= i < |points| ==> points[i].Forecast?
    ensures WithIrradiance(points) == []
  {
    if points != [] {
      WithIrradianceDropsForecasts(points[1..]);
    }
  }

  /** The irradiance chart shows exactly the measured run: every measured point has an
      irradiance (0 when neither GHI nor POA is given) and no forecast point has one. */
  lemma IrradianceChartIsMeasuredRun(ms: seq<SolarMeasurement>, fs: seq<SolarForecast>)
    ensures WithIrradiance(ChartData(ms, fs)) == MeasuredRun(ms)
  {
    WithIrradianceConcat(MeasuredRun(ms), ForecastRun(fs));
    WithIrradianceKeepsMeasured(MeasuredRun(ms));
    WithIrradianceDropsForecasts(ForecastRun(fs));
    assert MeasuredRun(ms) + [] == MeasuredRun(ms);
  }

  predicate HasIrradianceReading(m: SolarMeasurement)
  {
    Truthy(m.ghi) || Truthy(m.poaGlobal)
  }

  /** `measurements.some(m => m.ghi || m.poa_global)`: whether the irradiance chart is
      drawn, judged over all fetched measurements. */
  function ShowIrradiance(ms: seq<SolarMeasurement>): (show: bool)
    ensures show <==> exists i :: 0 <= i < |ms| && HasIrradianceReading(ms[i])
  {
    if ms == [] then false
    else if HasIrradianceReading(ms[0]) then true
    else
      var rest := ShowIrradiance(ms[1..]);
      assert rest <==> exists i :: 1 <= i < |ms| && HasIrradianceReading(ms[i]) by {
        if rest {
          var i :| 0 <= i < |ms[1..]| && HasIrradianceReading(ms[1..][i]);
          assert ms[i + 1] == ms[1..][i];
        } else {
          forall i | 1 <= i < |ms| ensures !HasIrradianceReading(ms[i]) {
            assert ms[i] == ms[1..][i - 1];
          }
        }
      }
      rest
  }

  function PanelStatus(p: SolarPanel): string
  {
    p.status
  }

  function PanelPower(p: SolarPanel): Option<real>
  {
    p.power
  }

  /** "Активные панели": the power of the active panels, a missing power counting as 0. */
  function ActivePanelPower(panels: seq<SolarPanel>): real
  {
    Assets.TotalActivePower(panels, PanelStatus, PanelPower)
  }

  /** Adding a panel raises the total by its power when it is active and leaves it
      unchanged otherwise; with no negative rated power the total is never negative. */
  lemma ActivePanelPowerOfAdded(panels: seq<SolarPanel>, p: SolarPanel)
    ensures p.status != Assets.ActiveStatus ==> ActivePanelPower(panels + [p]) == ActivePanelPower(panels)
    ensures p.status == Assets.ActiveStatus ==> ActivePanelPower(panels + [p]) == ActivePanelPower(panels) + OrZero(p.power)
  {
    Assets.TotalActivePowerAppend(panels, p, PanelStatus, PanelPower);
  }

  lemma ActivePanelPowerNonNegative(panels: seq<SolarPanel>)
    requires forall i :: 0 <= i < |panels| ==> OrZero(panels[i].power) >= 0.0
    ensures ActivePanelPower(panels) >= 0.0
  {
    assert forall i :: 0 <= i < |panels| ==> OrZero(PanelPower(panels[i])) >= 0.0;
    Assets.TotalActivePowerNonNegative(panels, PanelStatus, PanelPower);
  }

  /** `system.status || "Активна"`: a system without a status is shown as active. */
  function StatusShown(s: SolarPage.SolarSystem): (status: string)
    ensures s.status.Some? && s.status.value != "" ==> status == s.status.value
    ensures s.status.None? || s.status.value == "" ==> status == Assets.ActiveStatus
  {
    if s.status.Some? && s.status.value != "" then s.status.value else Assets.ActiveStatus
  }

  /** What the component renders, checked in this order: loading, error, missing system. */
  datatype View =
    | LoadingView
    | ErrorView(message: string)
    | NotFoundView
    | SystemView(
        system: SolarPage.SolarSystem,
        nominalPower: real,
        status: string,
        activePanelPower: real,
        chart: Option<seq<ChartPoint>>,
        irradianceChart: Option<seq<ChartPoint>>,
        measurementRows: Option<seq<SolarMeasurement>>)

  const NotFound: string := "Система не найдена"

  /** The view for a state whose forecasts are already in display order. */
  function ViewOf(system: Option<SolarPage.SolarSystem>, ms: seq<SolarMeasurement>, fs: seq<SolarForecast>,
                  panels: seq<SolarPanel>, loading: bool, error: string): (v: View)
    ensures v.LoadingView? <==> loading
    ensures v.ErrorView? <==> !loading && error != ""
    ensures v.NotFoundView? <==> !loading && error == "" && system.None?
    ensures v.SystemView? ==> v.system == system.value && v.activePanelPower == ActivePanelPower(panels)
    ensures v.SystemView? ==> (v.chart.Some? <==> ms != [] || fs != [])
    ensures v.SystemView? ==> (v.irradianceChart.Some? <==> exists i :: 0 <= i < |ms| && HasIrradianceReading(ms[i]))
    ensures v.SystemView? && v.irradianceChart.Some? ==> v.irradianceChart.value == MeasuredRun(ms)
    ensures v.SystemView? ==> (v.measurementRows.Some? <==> ms != [])
    ensures v.SystemView? ==> v.nominalPower == OrZero(system.value.powerKw) && v.status == StatusShown(system.value)
    ensures v.SystemView? && v.chart.Some? ==> v.chart.value == ChartData(ms, fs)
    ensures v.SystemView? && v.measurementRows.Some? ==> v.measurementRows.value == Chart.RecentRows(ms)
  {
    if loading then LoadingView
    else if error != "" then ErrorView(error)
    else if system.None? then NotFoundView
    else
      var chart := ChartData(ms, fs);
      IrradianceChartIsMeasuredRun(ms, fs);
      SystemView(
        system.value,
        OrZero(system.value.powerKw),
        StatusShown(system.value),
        ActivePanelPower(panels),
        if ms != [] || fs != [] then Some(chart) else None,
        if (ms != [] || fs != []) && ShowIrradiance(ms) then Some(WithIrradiance(chart)) else None,
        if ms != [] then Some(Chart.RecentRows(ms)) else None)
  }

  /** The component state of the page. */
  class SolarDetailPage {
    var system: Option<SolarPage.SolarSystem>
    var measurements: seq<SolarMeasurement>
    var forecasts: seq<SolarForecast>
    var panels: seq<SolarPanel>
    var loading: bool
    var error: string

    constructor ()
      ensures system == None && measurements == [] && forecasts == [] && panels == []
      ensures loading && error == ""
    {
      system := None;
      measurements := [];
      forecasts := [];
      panels := [];
      loading := true;
      error := "";
    }

    /** `fetchData`: the four requests are joined; only when all four succeed is
        anything stored, any failure sets the error instead; loading ends either way. */
    method FetchData(systemRes: Outcome<Option<SolarPage.SolarSystem>>,
                     measurementsRes: Outcome<Option<seq<SolarMeasurement>>>,
                     forecastsRes: Outcome<Option<seq<SolarForecast>>>,
                     panelsRes: Outcome<Option<seq<SolarPanel>>>)
      modifies this`system, this`measurements, this`forecasts, this`panels, this`loading, this`error
      ensures !loading
      ensures systemRes.Success? && measurementsRes.Success? && forecastsRes.Success? && panelsRes.Success? ==>
                && system == systemRes.data
                && measurements == OrEmpty(measurementsRes.data)
                && forecasts == OrEmpty(forecastsRes.data)
                && panels == OrEmpty(panelsRes.data)
                && error == old(error)
      ensures systemRes.Failure? || measurementsRes.Failure? || forecastsRes.Failure? || panelsRes.Failure? ==>
                && system == old(system) && measurements == old(measurements)
                && forecasts == old(forecasts) && panels == old(panels)
                && error == LoadFailed
    {
      if systemRes.Success? && measurementsRes.Success? && forecastsRes.Success? && panelsRes.Success? {
        system := systemRes.data;
        measurements := OrEmpty(measurementsRes.data);
        forecasts := OrEmpty(forecastsRes.data);
        panels := OrEmpty(panelsRes.data);
      } else {
        error := LoadFailed;
      }
      loading := false;
    }

    /** One render. Building `chartData` sorts the `forecasts` state array in place. */
    method Render() returns (view: View)
      modifies this`forecasts
      ensures forecasts == SortForecasts(old(forecasts))
      ensures view == ViewOf(system, measurements, forecasts, panels, loading, error)
    {
      forecasts := SortForecasts(forecasts);
      view := ViewOf(system, measurements, forecasts, panels, loading, error);
    }
  }

  /** A second render finds the forecasts sorted and leaves them as they are. */
  lemma RenderIsStable(fs: seq<SolarForecast>)
    ensures SortForecasts(SortForecasts(fs)) == SortForecasts(fs)
    ensures forall ms :: ChartData(ms, SortForecasts(fs)) == ChartData(ms, fs)
  {
    SortSortedIsIdentity(SortForecasts(fs), ForecastTime);
  }
}
