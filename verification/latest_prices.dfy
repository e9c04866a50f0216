/** Latest-price resolution: which asset addresses to query for the active
    network, and how the returned price records map to named assets. */
module LatestPrices {
  import opened Options
  import opened Networks
  import Strings

  // Fantom
  const WFTM_ADDRESS: string := "0xc579D1f3CF86749E05CD06f7ADe17856c2CE3126"
  const BEETS_ADDRESS: string := "0x5a60cE3D928c38Ee36B5104e98a42cf7B277f9C4"
  // Optimism
  const WETH_ADDRESS: string := "0x4200000000000000000000000000000000000006"
  const BEETS_OP_ADDRESS: string := "0x97513e975a7fa9072c72c92d8000b0db90b163c5"
  const OP_ADDRESS: string := "0x4200000000000000000000000000000000000042"
  const BAL_ADDRESS: string := "0xfe8b128ba8c78aabc59d4c64cee7ff28e9379921"

  const ADDRESS_SET_FTM: seq<string> := [WFTM_ADDRESS, BEETS_ADDRESS]
  const ADDRESS_SET_OP: seq<string> := [WETH_ADDRESS, BEETS_OP_ADDRESS, BAL_ADDRESS, OP_ADDRESS]

  /** One record of the latest-prices query; the price stays the decimal string it arrives as. */
  datatype PriceRecord = PriceRecord(asset: string, priceUSD: string)

  /** The hook's result: each field absent when no record matched. */
  datatype Prices = Prices(
    ftm: Option<string>,
    weth: Option<string>,
    beets: Option<string>,
    bal: Option<string>,
    op: Option<string>)

  /** The address list sent to the query, chosen by the active network's chain id. */
  function QueryAddresses(activeNetwork: NetworkInfo, optimismNetwork: NetworkInfo): (addresses: seq<string>)
    ensures activeNetwork.chainId == optimismNetwork.chainId ==> addresses == ADDRESS_SET_OP
    ensures activeNetwork.chainId != optimismNetwork.chainId ==> addresses == ADDRESS_SET_FTM
  {
    if activeNetwork.chainId == optimismNetwork.chainId then ADDRESS_SET_OP else ADDRESS_SET_FTM
  }

  /** The two networks' address sets share no address. */
  lemma AddressSetsDisjoint()
    ensures forall a :: a in ADDRESS_SET_FTM ==> a !in ADDRESS_SET_OP
  {
  }

  /** The queried list never mixes the two networks' addresses. */
  lemma QueriedAddressesNeverMix(activeNetwork: NetworkInfo, optimismNetwork: NetworkInfo)
    ensures var addresses := QueryAddresses(activeNetwork, optimismNetwork);
      (forall a :: a in addresses ==> a in ADDRESS_SET_OP && a !in ADDRESS_SET_FTM) ||
      (forall a :: a in addresses ==> a in ADDRESS_SET_FTM && a !in ADDRESS_SET_OP)
  {
    AddressSetsDisjoint();
  }

  /** `p` is the price of the first record (in list order) whose asset is one
      of `targets`, and is absent exactly when no record's asset is. */
  ghost predicate IsFirstPrice(records: seq<PriceRecord>, targets: set<string>, p: Option<string>) {
    && (p.None? <==> forall i :: 0 <= i < |records| ==> records[i].asset !in targets)
    && (p.Some? ==> exists i :: 0 <= i < |records| && records[i].asset in targets &&
                      records[i].priceUSD == p.value &&
                      forall j :: 0 <= j < i ==> records[j].asset !in targets)
  }

  /** `find`: the first record whose asset is one of `targets`. */
  function FindFirst(records: seq<PriceRecord>, targets: set<string>): (r: Option<PriceRecord>)
    ensures r.None? <==> forall i :: 0 <= i < |records| ==> records[i].asset !in targets
    ensures r.Some? ==> exists i :: 0 <= i < |records| && records[i] == r.value &&
                          records[i].asset in targets &&
                          forall j :: 0 <= j < i ==> records[j].asset !in targets
  {
    if records == [] then None
    else if records[0].asset in targets then Some(records[0])
    else
      var r := FindFirst(records[1..], targets);
      assert r.Some? ==> exists i :: 0 <= i < |records| && records[i] == r.value &&
                           records[i].asset in targets &&
                           forall j :: 0 <= j < i ==> records[j].asset !in targets by {
        if r.Some? {
          var i :| 0 <= i < |records[1..]| && records[1..][i] == r.value &&
                   records[1..][i].asset in targets &&
                   forall j :: 0 <= j < i ==> records[1..][j].asset !in targets;
          assert forall j :: 0 <= j < i + 1 ==> records[j].asset !in targets by {
            forall j | 0 <= j < i + 1 ensures records[j].asset !in targets {
              if j > 0 { assert records[j] == records[1..][j - 1]; }
            }
          }
        }
      }
      r
  }

  /** The `priceUSD` of the first matching record, or absent. */
  function PriceOf(records: seq<PriceRecord>, targets: set<string>): (p: Option<string>)
    ensures IsFirstPrice(records, targets, p)
  {
    match FindFirst(records, targets)
    case None => None
    case Some(record) => Some(record.priceUSD)
  }

  /** The records of the query result; no data yet means no records. */
  function Records(data: Option<seq<PriceRecord>>): seq<PriceRecord> {
    match data
    case None => []
    case Some(records) => records
  }

  /** The hook's result once the query result `data` is given. */
  function LatestPricesOf(data: Option<seq<PriceRecord>>): (r: Prices)
    ensures data.None? ==> r == Prices(None, None, None, None, None)
    ensures IsFirstPrice(Records(data), {WFTM_ADDRESS}, r.ftm)
    ensures IsFirstPrice(Records(data), {WETH_ADDRESS}, r.weth)
    ensures IsFirstPrice(Records(data), {BEETS_ADDRESS, BEETS_OP_ADDRESS}, r.beets)
    ensures IsFirstPrice(Records(data), {BAL_ADDRESS}, r.bal)
    ensures IsFirstPrice(Records(data), {OP_ADDRESS}, r.op)
  {
    var prices := Records(data);
    Prices(
      PriceOf(prices, {WFTM_ADDRESS}),
      PriceOf(prices, {WETH_ADDRESS}),
      PriceOf(prices, {BEETS_ADDRESS, BEETS_OP_ADDRESS}),
      PriceOf(prices, {BAL_ADDRESS}),
      PriceOf(prices, {OP_ADDRESS}))
  }

  /** The records whose asset is not `address`: every such record is kept (in its original order) and nothing else. */
  function Without(records: seq<PriceRecord>, address: string): (r: seq<PriceRecord>)
    ensures forall i :: 0 <= i < |r| ==> r[i].asset != address
    ensures forall i :: 0 <= i < |records| && records[i].asset != address ==> records[i] in r
    ensures forall x :: x in r ==> x in records
  {
    if records == [] then []
    else if records[0].asset == address then Without(records[1..], address)
    else [records[0]] + Without(records[1..], address)
  }

  /** Dropping one address's records does not change the lookup of other addresses. */
  lemma {:induction false} FindFirstIgnoresOtherAssets(records: seq<PriceRecord>, address: string, targets: set<string>)
    requires address !in targets
    ensures FindFirst(Without(records, address), targets) == FindFirst(records, targets)
  {
    if records != [] {
      FindFirstIgnoresOtherAssets(records[1..], address, targets);
      if records[0].asset != address {
        assert ([records[0]] + Without(records[1..], address))[1..] == Without(records[1..], address);
      }
    }
  }

  /** A missing record for one asset leaves every other field as it was. */
  lemma MissingAssetLeavesOthers(records: seq<PriceRecord>, address: string)
    ensures var before, after := LatestPricesOf(Some(records)), LatestPricesOf(Some(Without(records, address)));
      && (address != WFTM_ADDRESS ==> after.ftm == before.ftm)
      && (address != WETH_ADDRESS ==> after.weth == before.weth)
      && (address != BEETS_ADDRESS && address != BEETS_OP_ADDRESS ==> after.beets == before.beets)
      && (address != BAL_ADDRESS ==> after.bal == before.bal)
      && (address != OP_ADDRESS ==> after.op == before.op)
  {
    if address != WFTM_ADDRESS { FindFirstIgnoresOtherAssets(records, address, {WFTM_ADDRESS}); }
    if address != WETH_ADDRESS { FindFirstIgnoresOtherAssets(records, address, {WETH_ADDRESS}); }
    if address != BEETS_ADDRESS && address != BEETS_OP_ADDRESS {
      FindFirstIgnoresOtherAssets(records, address, {BEETS_ADDRESS, BEETS_OP_ADDRESS});
    }
    if address != BAL_ADDRESS { FindFirstIgnoresOtherAssets(records, address, {BAL_ADDRESS}); }
    if address != OP_ADDRESS { FindFirstIgnoresOtherAssets(records, address, {OP_ADDRESS}); }
  }

  /** Matching is exact: a record whose asset equals the WFTM address only up to
      letter case leaves `ftm` absent. */
  lemma CaseVariantDoesNotMatch(variant: string, priceUSD: string)
    requires Strings.ToLower(variant) == Strings.ToLower(WFTM_ADDRESS) && variant != WFTM_ADDRESS
    ensures LatestPricesOf(Some([PriceRecord(variant, priceUSD)])).ftm == None
  {
  }

  /** Such variants exist: the WFTM address is mixed-case, so its lower-cased
      form differs from it (and, by `ToLowerIdempotent`, lower-cases alike). */
  lemma LowerCasedWftmIsCaseVariant()
    ensures Strings.ToLower(WFTM_ADDRESS) != WFTM_ADDRESS
  {
    assert Strings.ToLower(WFTM_ADDRESS)[6] == 'd';
  }
}
