# Wavelength analytics dashboard: core logic model

This project models the logic of a multi-chain DeFi analytics dashboard, written in TypeScript/React. Rendering is out of scope. The model covers five pieces:

- **Chart-series tagging** (`AggregatedChartData`). The protocol chart aggregator walks one `{time, value}` series and pushes one `{time, Fantom: value}` entry per point. The chain label is fixed, and the `defaultValue` argument is never read. An entry is modelled as its `time` plus a map from chain label to value. That map's only key is `"Fantom"`.
- **Latest-price resolution** (`LatestPrices`). The active network's chain id selects which asset addresses are queried. The first price record (`find`) per logical asset is then looked up by exact string equality. The result has five optional fields, and each is absent when no record matched.
- **Route prefix** (`RoutePrefix`). This is `"/"` for the default network, and otherwise the lower-cased route between slashes.
- **Protocol page** (`ProtocolPage`). Headline figures default to 0 and are overwritten only under truthiness guards. The weekly fee series is gated on the weekly swap series. Four hover state cells (`ProtocolHovers`) are updated by one method per effect. Pure step functions on a `Hovers` value specify those methods, and lemmas about sequences of effects state what the effects guarantee.
- **Token page** (`TokenPage`). This covers the VOL/TVL/PRICE view state and its three buttons (`ChartViewState`), the value shown above the chart, the chart that is drawn, and the lower-casing of the route address.

Supporting modules:

- `Options` holds `Option` and JavaScript number truthiness: defined and non-zero.
- `Strings` holds ASCII lower-casing.
- `Networks` holds the network record and the Fantom entry.

The files modelled here do no window bucketing, no multi-chain merge by timestamp and no percent-change computation.

- Weekly bucketing is done by `useTransformedVolumeData`, which the Protocol page calls at src/pages/Protocol/index.tsx:80, 99 and 121. Its code is not part of this model.
- The change figures arrive precomputed from the protocol-data hook.
- The chart aggregator only relabels one series with a hard-coded chain name. `Tagged` models it as an order- and length-preserving relabelling, and no merge is invented.

The default (Velas) network and the Optimism network are parameters. The network registry defines only Fantom.

## Model

| member | source | states |
|---|---|---|
| AggregatedChartData.GetAggregatedProtocolChartData | src/utils/getAggregatedProtocolChartData.ts:4-21 | The loop's result is `Tagged(series)`: same length, and entry k has point k's time with the point's value under the single `Fantom` key. The result does not depend on `defaultValue`. |
| AggregatedChartData.Tagged | src/utils/getAggregatedProtocolChartData.ts:10-20 | One entry per input point, so empty input gives empty output. |
| AggregatedChartData.TaggedAt | src/utils/getAggregatedProtocolChartData.ts:14-17 | Entry k carries `time == series[k].time` and the values map `{Fantom: series[k].value}`. |
| AggregatedChartData.TaggedLabelIsFixed | src/utils/getAggregatedProtocolChartData.ts:15-16 | For any input, every entry's chain keys are exactly `{Fantom}`. |
| AggregatedChartData.UntaggedTagged | src/utils/getAggregatedProtocolChartData.ts:14-17 | Round trip: reading the `Fantom` value back out of every entry gives the input series, so nothing is lost or reordered. |
| AggregatedChartData.TaggedPreservesOrder | src/utils/getAggregatedProtocolChartData.ts:12-18 | Ascending input times give ascending entry times. Strictly ascending input gives strictly ascending entries. |
| LatestPrices.QueryAddresses | src/data/balancer/useLatestPrices.ts:17-19 | If the active chain id equals Optimism's, the list is exactly [WETH, BEETS_OP, BAL, OP]. Otherwise it is exactly [WFTM, BEETS]. |
| LatestPrices.AddressSetsDisjoint | src/data/balancer/useLatestPrices.ts:6-18 | No Fantom address is in the Optimism set. |
| LatestPrices.QueriedAddressesNeverMix | src/data/balancer/useLatestPrices.ts:17-19 | Every queried address belongs to one network's set and none to the other's. |
| LatestPrices.FindFirst | src/data/balancer/useLatestPrices.ts:30-34 | Absent iff no record's asset is a target. Otherwise the result is a matching record with no match before it. |
| LatestPrices.PriceOf | src/data/balancer/useLatestPrices.ts:30-41 | The price string of the first matching record, absent iff none matches. |
| LatestPrices.LatestPricesOf | src/data/balancer/useLatestPrices.ts:29-42 | With no data every field is absent. Each of ftm/weth/bal/op is present iff some record's asset equals that asset's address, and beets iff one equals either BEETS address. A present field is the first such record's price. |
| LatestPrices.FindFirstIgnoresOtherAssets | src/data/balancer/useLatestPrices.ts:30-34 | Removing every record of an address outside the targets does not change the lookup. |
| LatestPrices.MissingAssetLeavesOthers | src/data/balancer/useLatestPrices.ts:30-41 | Dropping one address's records leaves every field that does not look for that address unchanged. |
| LatestPrices.CaseVariantDoesNotMatch | src/data/balancer/useLatestPrices.ts:30 | A record whose asset equals the WFTM address only up to letter case leaves `ftm` absent. |
| LatestPrices.LowerCasedWftmIsCaseVariant | src/data/balancer/useLatestPrices.ts:6 | The WFTM address constant is mixed-case, so its lower-cased form differs from it. |
| Strings.ToLower | src/utils/networkPrefix.ts:8 | Lower-casing keeps the length and leaves no upper-case letter. Each upper-case letter becomes its lower-case letter, and every other character is kept. |
| Strings.ToLowerOfLowerIsIdentity | src/utils/networkPrefix.ts:8 | A string without upper-case letters is unchanged by lower-casing. |
| Strings.ToLowerIdempotent | src/utils/networkPrefix.ts:8 | Lower-casing twice equals lower-casing once. |
| RoutePrefix.NetworkPrefix | src/utils/networkPrefix.ts:3-10 | `"/"` for the default network, otherwise `"/" + lowercase(route) + "/"`. |
| RoutePrefix.PrefixIsSlashDelimited | src/utils/networkPrefix.ts:6-8 | The prefix begins and ends with `/`. Off the default network its length is `|route| + 2`. |
| RoutePrefix.PrefixSegmentIsLowerCase | src/utils/networkPrefix.ts:8 | The segment between the slashes is the lower-cased route. It holds no upper-case letter and lower-casing it again changes nothing. |
| RoutePrefix.FantomPrefix | src/utils/networkPrefix.ts:8 | Fantom's empty route gives `"//"` when Fantom is not the default network. |
| ProtocolPage.AggregateSection | src/pages/Protocol/index.tsx:52-64 | The chart series is the tagged source series, or empty when it is absent. The figure and the change figure are 0 unless the series is present and the value truthy, and then they are that value. |
| ProtocolPage.AggregateWeekly | src/pages/Protocol/index.tsx:120-125 | The weekly series is tagged when its gate is defined and empty otherwise. A defined gate with an undefined series is the failing call. |
| ProtocolPage.ComputeFigures | src/pages/Protocol/index.tsx:51-125 | The TVL, volume, swaps and fees figures follow the defaulting rule. The chart series are the tagged sources. Weekly fees are gated on the weekly swap series. The figure computation fails exactly when weekly swaps are defined and weekly fees are not. |
| ProtocolPage.SyncAll | src/pages/Protocol/index.tsx:137-142 | All four hovers take the current TVL/volume/fees/swaps figures. |
| ProtocolPage.ResetVolume | src/pages/Protocol/index.tsx:145-149 | A falsy volume hover (undefined or 0) becomes the current volume. A truthy one is kept. Other hovers are unchanged. |
| ProtocolPage.ResetLiquidity | src/pages/Protocol/index.tsx:151-155 | The liquidity hover changes iff it is undefined and the TVL is positive, and then becomes the TVL. A hover of 0 is kept. |
| ProtocolPage.ResetFees | src/pages/Protocol/index.tsx:157-161 | A falsy fees hover becomes the current fees. A truthy one is kept. |
| ProtocolPage.ResetSwaps | src/pages/Protocol/index.tsx:163-167 | The swaps hover changes only if it is falsy and the raw 24h swap count is truthy, and then becomes the swaps figure. |
| ProtocolPage.SetHoversSurviveResets | src/pages/Protocol/index.tsx:137-167 | Without a network/TVL change, any run of reset effects keeps a truthy volume/fees/swaps hover and any defined liquidity hover. |
| ProtocolPage.ResetsKeepSyncedHovers | src/pages/Protocol/index.tsx:137-167 | After the network/TVL effect, any run of reset effects leaves the hovers as that effect set them. |
| ProtocolPage.ResetsSettle | src/pages/Protocol/index.tsx:144-167 | Re-firing a reset effect right after it ran changes nothing. |
| ProtocolPage.ProtocolHovers.constructor | src/pages/Protocol/index.tsx:128-131 | All four hover cells start undefined. |
| ProtocolPage.ProtocolHovers.OnNetworkOrTvlChange | src/pages/Protocol/index.tsx:137-142 | The new hover state is `SyncAll` of the figures. |
| ProtocolPage.ProtocolHovers.OnVolumeHoverChange | src/pages/Protocol/index.tsx:145-149 | The new hover state is `ResetVolume` of the old one. |
| ProtocolPage.ProtocolHovers.OnLiquidityHoverChange | src/pages/Protocol/index.tsx:151-155 | The new hover state is `ResetLiquidity` of the old one. |
| ProtocolPage.ProtocolHovers.OnFeesHoverChange | src/pages/Protocol/index.tsx:157-161 | The new hover state is `ResetFees` of the old one. |
| ProtocolPage.ProtocolHovers.OnSwapsHoverChange | src/pages/Protocol/index.tsx:163-167 | The new hover state is `ResetSwaps` of the old one. |
| TokenPage.VolumeToggle | src/pages/Token/TokenPage.tsx:268-270 | The result is TVL iff the view was VOL, and VOL iff it was not. |
| TokenPage.TvlToggle | src/pages/Token/TokenPage.tsx:277-281 | The result is PRICE iff the view was TVL, and TVL iff it was not. |
| TokenPage.PriceToggle | src/pages/Token/TokenPage.tsx:288 | The result is always PRICE. |
| TokenPage.TogglesComposition | src/pages/Token/TokenPage.tsx:264-291 | Pressing Price again changes nothing. Two Volume presses return to VOL from VOL and reach TVL from any other view. Two TVL presses return to TVL from TVL and reach PRICE from any other view. |
| TokenPage.ChartViewState.constructor | src/pages/Token/TokenPage.tsx:109 | The initial view is VOL. |
| TokenPage.ChartViewState.ClickVolume | src/pages/Token/TokenPage.tsx:268-270 | The view becomes `VolumeToggle` of the old view. |
| TokenPage.ChartViewState.ClickTvl | src/pages/Token/TokenPage.tsx:277-281 | The view becomes `TvlToggle` of the old view. |
| TokenPage.ChartViewState.ClickPrice | src/pages/Token/TokenPage.tsx:288 | The view becomes PRICE. |
| TokenPage.LastValue | src/pages/Token/TokenPage.tsx:249-251 | Absent iff the series is empty, otherwise the last point's value. |
| TokenPage.DisplayedValue | src/pages/Token/TokenPage.tsx:246-252 | A truthy hover value wins. Otherwise the view decides: the last volume point in VOL, the last TVL point in TVL, the token price in PRICE. |
| TokenPage.SelectedChart | src/pages/Token/TokenPage.tsx:294-322 | TVL view draws the TVL line chart, VOL the volume bar chart. PRICE draws the price chart iff price data is non-empty and the loader iff it is empty. |
| TokenPage.DisplayedValueIsLastChartPoint | src/pages/Token/TokenPage.tsx:246-322 | Without a hover, the VOL and TVL views show the last point of the series their chart draws. |
| TokenPage.LookupAddress | src/pages/Token/TokenPage.tsx:90 | The lookup key has the route address's length and no upper-case letter, and it lower-cases to the same string as the route address. Together these make the key the route address lower-cased. |
| TokenPage.LookupAddressIgnoresCase | src/pages/Token/TokenPage.tsx:90 | Route addresses equal up to letter case give the same key, and a key is its own key. |

## Left out

- Query hooks: `useGetLatestPricesQuery`, `useBalancerChainProtocolData`, `useBalancerTokenData`, `useBalancerTokenPageData`, `useBalancerToken` and `useTransformedVolumeData` run GraphQL queries or transforms whose code is not part of this model. Their results are inputs. The weekly transform results are optional series.
- The `parseFloat` of `priceUSD`: floating-point parsing is not modelled. A price stays the decimal string it arrives as.
- Numbers are `real`. NaN (a falsy number) and floating-point rounding are not modelled. The `NaN` passed as `defaultValue` for TVL is represented by 0, which is harmless because the argument is never read.
- `toLocaleLowerCase` and `toLowerCase` are modelled as ASCII `A`-`Z` lower-casing. Locale and Unicode case mapping are not modelled.
- RoutePrefix.NetworkPrefix: the `===` identity test against the default network object is modelled as equality of network records. Two distinct objects with equal fields would differ in the source.
- Network records keep only `chainId`, `route` and `name`. Endpoint URIs, colours, images and the start timestamp are configuration that no modelled logic reads.
- React effect scheduling (when effects fire, dependency arrays) is not modelled. Each effect body is a method the caller invokes. The `protocolData` truthiness guard in the volume and fees effects is treated as always true, because rendering has already read fields of `protocolData` before any effect runs.
- The Protocol page passes no hover setter to its charts, so its hovers change only through the effects. The Token page's `latestValue`, which the charts set on hover, is an input.
- ProtocolPage.ComputeFigures: its failure case covers the figure computation only. The JSX reads the length of the weekly volume and weekly swap series without a guard, so an undefined weekly volume or swap series would also throw during rendering. That failure is not modelled.
- Labels (`leftLabel`, `valueLabel` and the like) and the summary-row display condition are rendering.
- Rendering, styling, number and date formatting, analytics events, scrolling and the saved-token watch list are not modelled.
- Apollo client construction and cache policies (`src/apollo/client.ts`) and the static token-list URLs (`src/constants/lists.ts`) are configuration without logic.
- Weekly bucketing (`useTransformedVolumeData`) and the computation of the change figures (inside the protocol-data hook) are not part of this model. Their results are inputs.
