/** The token page: the chart view toggle, the value shown above the chart,
    and which chart is drawn. */
module TokenPage {
  import opened Options
  import opened AggregatedChartData
  import Strings

  datatype ChartView = TVL | VOL | PRICE

  /** The view the page opens with. */
  const INITIAL_VIEW: ChartView := VOL

  /** The Volume button: leaves the volume view for TVL, otherwise goes to volume. */
  function VolumeToggle(view: ChartView): (next: ChartView)
    ensures next == TVL <==> view == VOL
    ensures next == VOL <==> view != VOL
  {
    if view == VOL then TVL else VOL
  }

  /** The TVL button: leaves the TVL view for price, otherwise goes to TVL. */
  function TvlToggle(view: ChartView): (next: ChartView)
    ensures next == PRICE <==> view == TVL
    ensures next == TVL <==> view != TVL
  {
    if view == TVL then PRICE else TVL
  }

  /** The Price button: always the price view. */
  function PriceToggle(view: ChartView): (next: ChartView)
    ensures next == PRICE
  {
    PRICE
  }

  /** Pressing Price again changes nothing. Two Volume presses return to VOL from
      VOL and reach TVL from any other view; two TVL presses return to TVL from
      TVL and reach PRICE from any other view. */
  lemma TogglesComposition(view: ChartView)
    ensures PriceToggle(PriceToggle(view)) == PriceToggle(view)
    ensures VolumeToggle(VolumeToggle(view)) == (if view == VOL then VOL else TVL)
    ensures TvlToggle(TvlToggle(view)) == (if view == TVL then TVL else PRICE)
  {
  }

  /** The page's view state cell, updated by the three buttons. */
  class ChartViewState {
    var view: ChartView

    constructor ()
      ensures view == INITIAL_VIEW
    {
      view := VOL;
    }

    method ClickVolume()
      modifies this
      ensures view == VolumeToggle(old(view))
    {
      if view == VOL {
        view := TVL;
      } else {
        view := VOL;
      }
    }

    method ClickTvl()
      modifies this
      ensures view == TvlToggle(old(view))
    {
      if view == TVL {
        view := PRICE;
      } else {
        view := TVL;
      }
    }

    method ClickPrice()
      modifies this
      ensures view == PriceToggle(old(view))
    {
      view := PRICE;
    }
  }

  /** The value of a series' last point, absent for an empty series. */
  function LastValue(series: seq<ChartDataItem>): (v: Option<real>)
    ensures v.None? <==> series == []
    ensures v.Some? ==> v.value == series[|series| - 1].value
  {
    if series == [] then None else Some(series[|series| - 1].value)
  }

  /** The number shown above the chart: the hovered value when truthy, else the
      latest volume (volume view), the latest TVL (TVL view) or the token price. */
  function DisplayedValue(latestValue: Option<real>, view: ChartView,
                          volumeData: seq<ChartDataItem>, tvlData: seq<ChartDataItem>,
                          priceUSD: real): (shown: Option<real>)
    ensures Truthy(latestValue) ==> shown == latestValue
    ensures !Truthy(latestValue) && view == VOL ==> shown == LastValue(volumeData)
    ensures !Truthy(latestValue) && view == TVL ==> shown == LastValue(tvlData)
    ensures !Truthy(latestValue) && view == PRICE ==> shown == Some(priceUSD)
  {
    if Truthy(latestValue) then latestValue
    else if view == VOL then LastValue(volumeData)
    else if view == TVL then LastValue(tvlData)
    else Some(priceUSD)
  }

  /** What the chart area holds. */
  datatype Chart = TvlLineChart(data: seq<ChartDataItem>) | VolumeBarChart(data: seq<ChartDataItem>) | PriceChart | PriceLoader

  /** The chart for the view; the price chart waits for non-empty price data. */
  function SelectedChart<P>(view: ChartView, tvlData: seq<ChartDataItem>, volumeData: seq<ChartDataItem>,
                            chartData: seq<P>): (chart: Chart)
    ensures view == TVL <==> chart == TvlLineChart(tvlData)
    ensures view == VOL <==> chart == VolumeBarChart(volumeData)
    ensures chart.PriceChart? <==> view == PRICE && |chartData| > 0
    ensures chart.PriceLoader? <==> view == PRICE && chartData == []
  {
    match view
    case TVL => TvlLineChart(tvlData)
    case VOL => VolumeBarChart(volumeData)
    case PRICE => if |chartData| > 0 then PriceChart else PriceLoader
  }

  /** Without a hover, the volume and TVL views show the last point of the very
      series their chart draws (absent when that series is empty). */
  lemma DisplayedValueIsLastChartPoint<P>(view: ChartView, volumeData: seq<ChartDataItem>,
                                          tvlData: seq<ChartDataItem>, chartData: seq<P>,
                                          latestValue: Option<real>, priceUSD: real)
    requires !Truthy(latestValue) && view != PRICE
    ensures var chart := SelectedChart(view, tvlData, volumeData, chartData);
      (chart.TvlLineChart? || chart.VolumeBarChart?) &&
      DisplayedValue(latestValue, view, volumeData, tvlData, priceUSD) == LastValue(chart.data)
  {
  }

  /** The route address is lower-cased before any lookup. */
  function LookupAddress(routeAddress: string): (address: string)
    ensures |address| == |routeAddress| && Strings.NoUpper(address)
    ensures Strings.ToLower(address) == Strings.ToLower(routeAddress)
  {
    Strings.ToLower(routeAddress)
  }

  /** Route addresses that differ only in letter case give the same lookup key,
      and a lower-case key is its own lookup key. */
  lemma LookupAddressIgnoresCase(a: string, b: string)
    requires Strings.ToLower(a) == Strings.ToLower(b)
    ensures LookupAddress(a) == LookupAddress(b)
    ensures LookupAddress(LookupAddress(a)) == LookupAddress(a)
  {
  }
}
