/** The protocol overview page: headline figures computed from the protocol
    data, and the four hover values kept in sync with them by effects. */
module ProtocolPage {
  import opened Options
  import opened AggregatedChartData

  /** The protocol data hook's result, as far as the page reads it. */
  datatype ProtocolData = ProtocolData(
    tvlData: Option<seq<ChartDataItem>>, tvl: Option<real>, tvlChange: Option<real>,
    volumeData: Option<seq<ChartDataItem>>, volume24: Option<real>, volumeChange: Option<real>,
    swapData: Option<seq<ChartDataItem>>, swaps24: Option<real>,
    feeData: Option<seq<ChartDataItem>>, fees24: Option<real>, feesChange: Option<real>)

  /** The weekly series the volume transform delivers for volume, swaps and fees. */
  datatype WeeklySeries = WeeklySeries(
    volume: Option<seq<ChartDataItem>>,
    swaps: Option<seq<ChartDataItem>>,
    fees: Option<seq<ChartDataItem>>)

  /** The page's headline figures and chart series. */
  datatype Figures = Figures(
    aggregatedTVL: seq<AggregatedEntry>, protocolTVL: real, protocolTVLChange: real,
    aggregatedVolume: seq<AggregatedEntry>, protocolVolume: real, protocolVolumeChange: real,
    aggregatedWeeklyVolume: seq<AggregatedEntry>,
    aggregatedSwaps: seq<AggregatedEntry>, protocolSwaps: real,
    aggregatedWeeklySwaps: seq<AggregatedEntry>,
    aggregatedFees: seq<AggregatedEntry>, protocolFees: real, protocolFeesChange: real,
    aggregatedWeeklyFees: seq<AggregatedEntry>)

  /** The figure computation either produces the figures or stops with a
      TypeError (a series method called on `undefined`). */
  datatype Render = Rendered(figures: Figures) | TypeError

  /** `figure` stays 0 unless the series is present and the value truthy, in
      which case it is that value. */
  predicate DefaultsToZero(series: Option<seq<ChartDataItem>>, x: Option<real>, figure: real) {
    && (figure != 0.0 <==> series.Some? && Truthy(x))
    && (figure != 0.0 ==> x == Some(figure))
  }

  /** The chart series built from an optional source series: empty when it is absent. */
  function AggregatedOrEmpty(series: Option<seq<ChartDataItem>>): seq<AggregatedEntry> {
    match series
    case None => []
    case Some(s) => Tagged(s)
  }

  /** One "aggregated data" section of the page: the chart series of an
      optional source series, and its headline figure and change figure, each
      defaulting to 0. */
  method AggregateSection(series: Option<seq<ChartDataItem>>, value: Option<real>, change: Option<real>)
    returns (aggregated: seq<AggregatedEntry>, figure: real, changeFigure: real)
    ensures aggregated == AggregatedOrEmpty(series)
    ensures DefaultsToZero(series, value, figure)
    ensures DefaultsToZero(series, change, changeFigure)
  {
    aggregated, figure, changeFigure := [], 0.0, 0.0;
    if series.Some? {
      aggregated := GetAggregatedProtocolChartData(series.value, 0.0);
      if Truthy(value) {
        figure := value.value;
      }
      if Truthy(change) {
        changeFigure := change.value;
      }
    }
  }

  /** A weekly chart series, built when its transform result is defined. */
  method AggregateWeekly(gate: Option<seq<ChartDataItem>>, series: Option<seq<ChartDataItem>>)
    returns (r: Option<seq<AggregatedEntry>>)
    ensures r.None? <==> gate.Some? && series.None?
    ensures r.Some? ==> r.value == (if gate.Some? then Tagged(series.value) else [])
  {
    r := Some([]);
    if gate.Some? {
      if series.None? {
        return None;
      }
      var aggregated := GetAggregatedProtocolChartData(series.value, 0.0);
      r := Some(aggregated);
    }
  }

  /** The render-time computation of the figures. */
  method ComputeFigures(protocolData: ProtocolData, weekly: WeeklySeries) returns (r: Render)
    ensures r.TypeError? <==> weekly.swaps.Some? && weekly.fees.None?
    ensures r.Rendered? ==>
      var f := r.figures;
      && DefaultsToZero(protocolData.tvlData, protocolData.tvl, f.protocolTVL)
      && DefaultsToZero(protocolData.tvlData, protocolData.tvlChange, f.protocolTVLChange)
      && DefaultsToZero(protocolData.volumeData, protocolData.volume24, f.protocolVolume)
      && DefaultsToZero(protocolData.volumeData, protocolData.volumeChange, f.protocolVolumeChange)
      && DefaultsToZero(protocolData.swapData, protocolData.swaps24, f.protocolSwaps)
      && DefaultsToZero(protocolData.feeData, protocolData.fees24, f.protocolFees)
      && DefaultsToZero(protocolData.feeData, protocolData.feesChange, f.protocolFeesChange)
      && f.aggregatedTVL == AggregatedOrEmpty(protocolData.tvlData)
      && f.aggregatedVolume == AggregatedOrEmpty(protocolData.volumeData)
      && f.aggregatedSwaps == AggregatedOrEmpty(protocolData.swapData)
      && f.aggregatedFees == AggregatedOrEmpty(protocolData.feeData)
      && f.aggregatedWeeklyVolume == AggregatedOrEmpty(weekly.volume)
      && f.aggregatedWeeklySwaps == AggregatedOrEmpty(weekly.swaps)
      // the weekly fee series is gated on the weekly SWAP series
      && f.aggregatedWeeklyFees == (if weekly.swaps.Some? then Tagged(weekly.fees.value) else [])
  {
    var aggregatedTVL, protocolTVL, protocolTVLChange :=
      AggregateSection(protocolData.tvlData, protocolData.tvl, protocolData.tvlChange);

    var aggregatedVolume, protocolVolume, protocolVolumeChange :=
      AggregateSection(protocolData.volumeData, protocolData.volume24, protocolData.volumeChange);
    var aggregatedWeeklyVolume := AggregateWeekly(weekly.volume, weekly.volume);

    // the swaps section has no change figure
    var aggregatedSwaps, protocolSwaps, _ :=
      AggregateSection(protocolData.swapData, protocolData.swaps24, None);
    var aggregatedWeeklySwaps := AggregateWeekly(weekly.swaps, weekly.swaps);

    var aggregatedFees, protocolFees, protocolFeesChange :=
      AggregateSection(protocolData.feeData, protocolData.fees24, protocolData.feesChange);
    var aggregatedWeeklyFees := AggregateWeekly(weekly.swaps, weekly.fees);
    if aggregatedWeeklyFees.None? {
      return TypeError;
    }

    r := Rendered(Figures(
      aggregatedTVL, protocolTVL, protocolTVLChange,
      aggregatedVolume, protocolVolume, protocolVolumeChange,
      aggregatedWeeklyVolume.value,
      aggregatedSwaps, protocolSwaps,
      aggregatedWeeklySwaps.value,
      aggregatedFees, protocolFees, protocolFeesChange,
      aggregatedWeeklyFees.value));
  }

  /** The four hover values, as one value. */
  datatype Hovers = Hovers(volume: Option<real>, liquidity: Option<real>, fees: Option<real>, swaps: Option<real>)

  /** Effect on a network change or a TVL change: every hover takes its current figure. */
  function SyncAll(f: Figures): (h: Hovers)
    ensures h.liquidity == Some(f.protocolTVL) && h.volume == Some(f.protocolVolume)
    ensures h.fees == Some(f.protocolFees) && h.swaps == Some(f.protocolSwaps)
  {
    Hovers(Some(f.protocolVolume), Some(f.protocolTVL), Some(f.protocolFees), Some(f.protocolSwaps))
  }

  /** Volume effect: a falsy hover (undefined or 0) is reset to the current volume. */
  function ResetVolume(h: Hovers, f: Figures): (r: Hovers)
    ensures r.liquidity == h.liquidity && r.fees == h.fees && r.swaps == h.swaps
    ensures Truthy(h.volume) ==> r.volume == h.volume
    ensures !Truthy(h.volume) ==> r.volume == Some(f.protocolVolume)
  {
    if !Truthy(h.volume) then h.(volume := Some(f.protocolVolume)) else h
  }

  /** Liquidity effect: only an undefined hover is reset, and only while the TVL is positive. */
  function ResetLiquidity(h: Hovers, f: Figures): (r: Hovers)
    ensures r.volume == h.volume && r.fees == h.fees && r.swaps == h.swaps
    ensures r.liquidity != h.liquidity <==> h.liquidity.None? && f.protocolTVL > 0.0
    ensures r.liquidity != h.liquidity ==> r.liquidity == Some(f.protocolTVL)
  {
    if h.liquidity.None? && f.protocolTVL > 0.0 then h.(liquidity := Some(f.protocolTVL)) else h
  }

  /** Fees effect: a falsy hover is reset to the current fees. */
  function ResetFees(h: Hovers, f: Figures): (r: Hovers)
    ensures r.volume == h.volume && r.liquidity == h.liquidity && r.swaps == h.swaps
    ensures Truthy(h.fees) ==> r.fees == h.fees
    ensures !Truthy(h.fees) ==> r.fees == Some(f.protocolFees)
  {
    if !Truthy(h.fees) then h.(fees := Some(f.protocolFees)) else h
  }

  /** Swaps effect: a falsy hover is reset to the current swap count, but only
      while the raw 24h swap count is truthy. */
  function ResetSwaps(h: Hovers, f: Figures, protocolData: ProtocolData): (r: Hovers)
    ensures r.volume == h.volume && r.liquidity == h.liquidity && r.fees == h.fees
    ensures r.swaps != h.swaps ==> !Truthy(h.swaps) && Truthy(protocolData.swaps24) && r.swaps == Some(f.protocolSwaps)
    ensures !Truthy(h.swaps) && Truthy(protocolData.swaps24) ==> r.swaps == Some(f.protocolSwaps)
  {
    if !Truthy(h.swaps) && Truthy(protocolData.swaps24) then h.(swaps := Some(f.protocolSwaps)) else h
  }

  /** The page's effects, one per `useEffect` body. */
  datatype Effect = NetworkOrTvlChanged | VolumeReset | LiquidityReset | FeesReset | SwapsReset

  function Apply(h: Hovers, e: Effect, f: Figures, protocolData: ProtocolData): Hovers {
    match e
    case NetworkOrTvlChanged => SyncAll(f)
    case VolumeReset => ResetVolume(h, f)
    case LiquidityReset => ResetLiquidity(h, f)
    case FeesReset => ResetFees(h, f)
    case SwapsReset => ResetSwaps(h, f, protocolData)
  }

  /** The hovers after running `effects` in order against the same figures. */
  function Run(h: Hovers, effects: seq<Effect>, f: Figures, protocolData: ProtocolData): Hovers
    decreases |effects|
  {
    if effects == [] then h else Run(Apply(h, effects[0], f, protocolData), effects[1..], f, protocolData)
  }

  /** Only the network/TVL effect replaces a set hover: the reset effects keep a
      truthy volume, fees or swaps hover, and any defined liquidity hover (0 included). */
  lemma {:induction false} SetHoversSurviveResets(h: Hovers, effects: seq<Effect>, f: Figures, protocolData: ProtocolData)
    requires NetworkOrTvlChanged !in effects
    decreases |effects|
    ensures var r := Run(h, effects, f, protocolData);
      && (Truthy(h.volume) ==> r.volume == h.volume)
      && (Truthy(h.fees) ==> r.fees == h.fees)
      && (Truthy(h.swaps) ==> r.swaps == h.swaps)
      && (h.liquidity.Some? ==> r.liquidity == h.liquidity)
  {
    if effects != [] {
      assert NetworkOrTvlChanged !in effects[1..];
      SetHoversSurviveResets(Apply(h, effects[0], f, protocolData), effects[1..], f, protocolData);
    }
  }

  /** After the network/TVL effect, the reset effects change nothing: they
      never fight it for the displayed values. */
  lemma {:induction false} ResetsKeepSyncedHovers(effects: seq<Effect>, f: Figures, protocolData: ProtocolData)
    requires NetworkOrTvlChanged !in effects
    decreases |effects|
    ensures Run(SyncAll(f), effects, f, protocolData) == SyncAll(f)
  {
    if effects != [] {
      assert Apply(SyncAll(f), effects[0], f, protocolData) == SyncAll(f);
      assert NetworkOrTvlChanged !in effects[1..];
      ResetsKeepSyncedHovers(effects[1..], f, protocolData);
    }
  }

  /** Each reset effect settles after one run: re-firing it (as its own state
      change triggers) changes nothing further. */
  lemma ResetsSettle(h: Hovers, f: Figures, protocolData: ProtocolData)
    ensures ResetVolume(ResetVolume(h, f), f) == ResetVolume(h, f)
    ensures ResetLiquidity(ResetLiquidity(h, f), f) == ResetLiquidity(h, f)
    ensures ResetFees(ResetFees(h, f), f) == ResetFees(h, f)
    ensures ResetSwaps(ResetSwaps(h, f, protocolData), f, protocolData) == ResetSwaps(h, f, protocolData)
  {
  }

  /** The page's hover state cells, updated in place by the effects. */
  class ProtocolHovers {
    var volumeHover: Option<real>
    var liquidityHover: Option<real>
    var feesHover: Option<real>
    var swapsHover: Option<real>

    function Current(): Hovers
      reads this
    {
      Hovers(volumeHover, liquidityHover, feesHover, swapsHover)
    }

    /** All four hovers start undefined. */
    constructor ()
      ensures Current() == Hovers(None, None, None, None)
    {
      volumeHover, liquidityHover, feesHover, swapsHover := None, None, None, None;
    }

    /** The effect run on a network change or a `protocolTVL` change. */
    method OnNetworkOrTvlChange(f: Figures)
      modifies this
      ensures Current() == SyncAll(f)
    {
      liquidityHover := Some(f.protocolTVL);
      volumeHover := Some(f.protocolVolume);
      feesHover := Some(f.protocolFees);
      swapsHover := Some(f.protocolSwaps);
    }

    /** The volume effect; the `protocolData` guard always holds, since rendering
        has already read its fields. */
    method OnVolumeHoverChange(f: Figures)
      modifies this
      ensures Current() == ResetVolume(old(Current()), f)
    {
      if !Truthy(volumeHover) {
        volumeHover := Some(f.protocolVolume);
      }
    }

    method OnLiquidityHoverChange(f: Figures)
      modifies this
      ensures Current() == ResetLiquidity(old(Current()), f)
    {
      if liquidityHover.None? && f.protocolTVL > 0.0 {
        liquidityHover := Some(f.protocolTVL);
      }
    }

    method OnFeesHoverChange(f: Figures)
      modifies this
      ensures Current() == ResetFees(old(Current()), f)
    {
      if !Truthy(feesHover) {
        feesHover := Some(f.protocolFees);
      }
    }

    method OnSwapsHoverChange(f: Figures, protocolData: ProtocolData)
      modifies this
      ensures Current() == ResetSwaps(old(Current()), f, protocolData)
    {
      if !Truthy(swapsHover) && Truthy(protocolData.swaps24) {
        swapsHover := Some(f.protocolSwaps);
      }
    }
  }
}
