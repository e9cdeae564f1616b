/**
 * The account inventory of src/lib/useBonfire.ts: the ALGO record, and
 * `fetchAccountInfo`, which reshapes the connected account's holdings into
 * asset records, fills each one in from the node's asset lookup and replaces
 * the store, or resets the store to a zero ALGO record when anything fails.
 *
 * The account query and the per-asset lookup are inputs: `query` is the
 * account information (`None` when the request throws) and `lookup` answers
 * one asset id (`None` when that request throws). The concurrent lookups of
 * `Promise.all` become a loop over the indices, as each result is written
 * back to its own slot.
 */
module UseBonfire {
  import opened Wrappers
  import opened Types
  import opened Utilities

  /** Total supply of Algo in microalgos, as the ALGO record states it. */
  const ALGO_TOTAL: nat := 10000000000000000

  /**
   * `makeAlgoAssetDataObj(amt)`: the row standing for the account's Algo
   * balance, asset 0 with 6 decimals, whose decimal amount is the balance in
   * Algo.
   */
  function MakeAlgoAssetDataObj(amt: nat): (r: BonfireAssetData)
    ensures r.id == 0 && r.amount == amt && !r.frozen && r.decimals == 6
    ensures r.name == Some("ALGO") && r.unitName == Some("ALGO") && r.total == 10000000000000000
    ensures r.decimalAmount * 1000000.0 == amt as real
  {
    BonfireAssetData(0, amt, false, 6, Some("ALGO"), Some("ALGO"), ALGO_TOTAL,
                     NumberToDecimal(amt as real, 6), None, None, None, None)
  }

  /** The ALGO record is asset 0 with 6 decimals, and its decimal amount is its whole balance. */
  lemma AlgoRecordIsWholeBalance(amt: nat)
    ensures var r := MakeAlgoAssetDataObj(amt);
            r.id == 0 && r.amount == amt && !r.frozen && r.decimals == 6 &&
            r.name == Some("ALGO") && r.unitName == Some("ALGO") &&
            MakeIntegerAmount(r.decimalAmount, r.decimals) == amt as real &&
            r.decimalAmount * 1000000.0 == amt as real
  {
    AmountRoundTrip(amt as real, 6);
  }

  /** One holding of the account, reshaped: decimals, total and decimal amount still 0. */
  function Reshape(b: AssetBalance): BonfireAssetData {
    BonfireAssetData(b.assetId, b.amount, b.isFrozen, 0, None, None, 0, 0.0, None, None, None, None)
  }

  function Reshaped(holdings: seq<AssetBalance>): seq<BonfireAssetData> {
    seq(|holdings|, i requires 0 <= i < |holdings| => Reshape(holdings[i]))
  }

  /** The record after its lookup: name, unit, decimals, total and the decimal amount. */
  function Fill(a: BonfireAssetData, params: AssetParams): BonfireAssetData {
    a.(name := params.name, unitName := params.unitName, decimals := params.decimals,
       total := params.total, decimalAmount := NumberToDecimal(a.amount as real, params.decimals))
  }

  /** Some record with an id above 0 has a lookup that fails. */
  predicate LookupFails(assets: seq<BonfireAssetData>, lookup: AssetId -> Option<AssetParams>) {
    exists j :: 0 <= j < |assets| && assets[j].id > 0 && lookup(assets[j].id).None?
  }

  /** One record after the fill: only ids above 0 are looked up. */
  function FillOne(a: BonfireAssetData, lookup: AssetId -> Option<AssetParams>): BonfireAssetData
    requires a.id > 0 ==> lookup(a.id).Some?
  {
    if a.id > 0 then Fill(a, lookup(a.id).value) else a
  }

  /** The `Promise.all` fill: every record filled in, or `None` when a lookup fails. */
  function FillAll(assets: seq<BonfireAssetData>, lookup: AssetId -> Option<AssetParams>): Option<seq<BonfireAssetData>> {
    if LookupFails(assets, lookup) then None
    else Some(seq(|assets|, j requires 0 <= j < |assets| => FillOne(assets[j], lookup)))
  }
  /** One failed lookup fails the whole fill. */
  lemma FillAllFails(assets: seq<BonfireAssetData>, lookup: AssetId -> Option<AssetParams>, i: nat)
    requires i < |assets| && assets[i].id > 0 && lookup(assets[i].id).None?
    ensures FillAll(assets, lookup) == None
  {
  }

  /** Records filled one by one, every lookup having succeeded, are what the fill gives. */
  lemma FillAllSucceeds(assets: seq<BonfireAssetData>, lookup: AssetId -> Option<AssetParams>, filled: seq<BonfireAssetData>)
    requires |filled| == |assets|
    requires forall j :: 0 <= j < |assets| ==> assets[j].id > 0 ==> lookup(assets[j].id).Some?
    requires forall j :: 0 <= j < |assets| ==> filled[j] == FillOne(assets[j], lookup)
    ensures FillAll(assets, lookup) == Some(filled)
  {
    assert !LookupFails(assets, lookup);
    assert filled == seq(|assets|, j requires 0 <= j < |assets| => FillOne(assets[j], lookup));
  }


  /**
   * The store after a fetch for an account whose information arrived. A
   * missing `assets` list makes `assetsFromRes.map` throw, which resets the
   * store.
   */
  function FetchedInventory(info: AccountInfo, lookup: AssetId -> Option<AssetParams>): seq<BonfireAssetData> {
    match info.assets
    case None => [MakeAlgoAssetDataObj(0)]
    case Some(holdings) =>
      match FillAll(Reshaped(holdings), lookup)
      case Some(assets) => assets
      case None => [MakeAlgoAssetDataObj(0)]
  }

  /** Truthiness of the address: `if (addr)` */
  predicate AddressTruthy(addr: Option<string>) {
    addr.Some? && addr.value != ""
  }

  /**
   * The `Promise.all` over the reshaped holdings: each record with an id
   * above 0 is filled from its lookup, in order; the first failed lookup
   * makes the whole fill fail.
   */
  method FillRecords(holdings: seq<AssetBalance>, lookup: AssetId -> Option<AssetParams>)
    returns (r: Option<seq<BonfireAssetData>>)
    ensures r == FillAll(Reshaped(holdings), lookup)
  {
    var assets := new BonfireAssetData[|holdings|](i requires 0 <= i < |holdings| => Reshape(holdings[i]));
    ghost var reshaped := Reshaped(holdings);
    var i := 0;
    while i < assets.Length
      invariant 0 <= i <= assets.Length
      invariant forall j :: 0 <= j < i ==> reshaped[j].id > 0 ==> lookup(reshaped[j].id).Some?
      invariant forall j :: 0 <= j < i ==> assets[j] == FillOne(reshaped[j], lookup)
      invariant forall j :: i <= j < assets.Length ==> assets[j] == reshaped[j]
    {
      if assets[i].id > 0 {
        match lookup(assets[i].id)
        case None =>
          FillAllFails(reshaped, lookup, i);
          return None;
        case Some(params) =>
          assets[i] := Fill(assets[i], params);
      }
      i := i + 1;
    }
    FillAllSucceeds(reshaped, lookup, assets[..]);
    return Some(assets[..]);
  }

  /** The account state `useBonfire` keeps: the Algo balance signal and the asset store. */
  class BonfireState {
    var algoBalance: nat
    var accountAssets: seq<BonfireAssetData>

    /** `createSignal(0)` and `createStore([])` */
    constructor ()
      ensures algoBalance == 0 && accountAssets == []
    {
      algoBalance := 0;
      accountAssets := [];
    }

    /**
     * `fetchAccountInfo()`. Without a truthy address nothing happens. A
     * failed account query resets the store; otherwise the balance is set
     * first, and the store becomes the filled records or, when the `assets`
     * list is missing or a lookup fails, the reset record (the balance keeps
     * its new value).
     */
    method FetchAccountInfo(addr: Option<string>, query: Option<AccountInfo>, lookup: AssetId -> Option<AssetParams>)
      modifies this
      ensures !AddressTruthy(addr) ==> algoBalance == old(algoBalance) && accountAssets == old(accountAssets)
      ensures AddressTruthy(addr) && query.None? ==>
                algoBalance == old(algoBalance) && accountAssets == [MakeAlgoAssetDataObj(0)]
      ensures AddressTruthy(addr) && query.Some? ==>
                algoBalance == query.value.amount && accountAssets == FetchedInventory(query.value, lookup)
    {
      if !AddressTruthy(addr) {
        return;
      }
      if query.None? {
        accountAssets := [MakeAlgoAssetDataObj(0)];
        return;
      }
      var info := query.value;
      algoBalance := info.amount;
      if info.assets.None? {
        // `assetsFromRes.map` on an `undefined` list throws
        accountAssets := [MakeAlgoAssetDataObj(0)];
        return;
      }
      var filled := FillRecords(info.assets.value, lookup);
      match filled
      case None => accountAssets := [MakeAlgoAssetDataObj(0)];
      case Some(assets) => accountAssets := assets;
    }

    /** The reaction to a new address: the empty address resets the store, any other fetches. */
    method OnAddressChange(addr: Option<string>, query: Option<AccountInfo>, lookup: AssetId -> Option<AssetParams>)
      modifies this
      ensures addr == Some("") ==> algoBalance == old(algoBalance) && accountAssets == [MakeAlgoAssetDataObj(0)]
      ensures addr == None ==> algoBalance == old(algoBalance) && accountAssets == old(accountAssets)
      ensures AddressTruthy(addr) && query.None? ==>
                algoBalance == old(algoBalance) && accountAssets == [MakeAlgoAssetDataObj(0)]
      ensures AddressTruthy(addr) && query.Some? ==>
                algoBalance == query.value.amount && accountAssets == FetchedInventory(query.value, lookup)
    {
      if addr == Some("") {
        accountAssets := [MakeAlgoAssetDataObj(0)];
      } else {
        FetchAccountInfo(addr, query, lookup);
      }
    }
  }

  /**
   * Reshaping keeps length and order: each record keeps its holding's id,
   * amount and frozen flag, with decimals, total and decimal amount 0.
   */
  lemma ReshapeKeepsHoldings(holdings: seq<AssetBalance>)
    ensures |Reshaped(holdings)| == |holdings|
    ensures forall j :: 0 <= j < |holdings| ==>
              var a := Reshaped(holdings)[j];
              a.id == holdings[j].assetId && a.amount == holdings[j].amount && a.frozen == holdings[j].isFrozen &&
              a.decimals == 0 && a.total == 0 && a.decimalAmount == 0.0
  {
  }

  /**
   * The fill fails exactly when some lookup for an id above 0 fails. When it
   * succeeds it keeps length, order, ids, amounts and frozen flags; records
   * with an id above 0 take the looked-up decimals, and their decimal amount
   * is the amount scaled down by them; records with id 0 are untouched.
   */
  lemma FillAllOutcome(assets: seq<BonfireAssetData>, lookup: AssetId -> Option<AssetParams>)
    ensures FillAll(assets, lookup).None? <==> LookupFails(assets, lookup)
    ensures FillAll(assets, lookup).Some? ==>
              var r := FillAll(assets, lookup).value;
              |r| == |assets| &&
              forall j :: 0 <= j < |assets| ==>
                r[j].id == assets[j].id && r[j].amount == assets[j].amount && r[j].frozen == assets[j].frozen &&
                (assets[j].id == 0 ==> r[j] == assets[j]) &&
                (assets[j].id > 0 ==> lookup(assets[j].id).Some? &&
                                      r[j].decimals == lookup(assets[j].id).value.decimals &&
                                      r[j].decimalAmount * Pow10(r[j].decimals) as real == assets[j].amount as real)
  {
  }

  /**
   * A fetched inventory is either the reset record, exactly when the
   * `assets` list is missing or a lookup fails, or one record per holding in
   * the account's order; every record's decimal amount converts back to its
   * whole balance.
   */
  lemma FetchedRecordsHoldWholeBalance(info: AccountInfo, lookup: AssetId -> Option<AssetParams>)
    ensures var inv := FetchedInventory(info, lookup);
            (inv == [MakeAlgoAssetDataObj(0)] <==>
               info.assets.None? || LookupFails(Reshaped(info.assets.value), lookup)) &&
            (inv != [MakeAlgoAssetDataObj(0)] ==>
               info.assets.Some? && |inv| == |info.assets.value| &&
               forall j :: 0 <= j < |inv| ==> inv[j].id == info.assets.value[j].assetId) &&
            forall j :: 0 <= j < |inv| && (inv[j].id > 0 || inv == [MakeAlgoAssetDataObj(0)]) ==>
              MakeIntegerAmount(inv[j].decimalAmount, inv[j].decimals) == inv[j].amount as real
  {
    match info.assets
    case None =>
      AlgoRecordIsWholeBalance(0);
    case Some(holdings) =>
      HoldingsRecordsHoldWholeBalance(info, holdings, lookup);
  }

  lemma {:induction false} HoldingsRecordsHoldWholeBalance(info: AccountInfo, holdings: seq<AssetBalance>,
                                                           lookup: AssetId -> Option<AssetParams>)
    requires info.assets == Some(holdings)
    ensures var inv := FetchedInventory(info, lookup);
            (inv == [MakeAlgoAssetDataObj(0)] <==> LookupFails(Reshaped(holdings), lookup)) &&
            (inv != [MakeAlgoAssetDataObj(0)] ==>
               |inv| == |holdings| && forall j :: 0 <= j < |inv| ==> inv[j].id == holdings[j].assetId) &&
            forall j :: 0 <= j < |inv| && (inv[j].id > 0 || inv == [MakeAlgoAssetDataObj(0)]) ==>
              MakeIntegerAmount(inv[j].decimalAmount, inv[j].decimals) == inv[j].amount as real
  {
    var inv := FetchedInventory(info, lookup);
    var reshaped := Reshaped(holdings);
    if LookupFails(reshaped, lookup) {
      AlgoRecordIsWholeBalance(0);
    } else {
      FillAllOutcome(reshaped, lookup);
      if |inv| == 1 {
        assert inv[0].id > 0 || inv[0].name == None;
      }
      forall j | 0 <= j < |inv| && inv[j].id > 0
        ensures MakeIntegerAmount(inv[j].decimalAmount, inv[j].decimals) == inv[j].amount as real
      {
        AmountRoundTrip(inv[j].amount as real, inv[j].decimals);
      }
    }
  }
}
