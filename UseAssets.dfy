/**
 * The account inventory of src/lib/useAssets.ts, built on the wallet
 * library's `AssetData` record: the ALGO record comes first, then one record
 * per holding, each filled in from the node's asset lookup. Any failure, and
 * the empty address, leave the single zero ALGO record.
 *
 * As in `UseBonfire`, the account query and the per-asset lookup are inputs
 * (`None` when the request throws) and `Promise.all` is a loop over indices.
 */
module UseAssets {
  import opened Wrappers
  import opened Types

  /** The wallet library's asset record, with the fields this file sets. */
  datatype AssetData = AssetData(
    id: AssetId,
    amount: nat,
    frozen: bool,
    decimals: nat,
    name: Option<string>,
    unitName: Option<string>,
    total: nat)

  /** Total supply of Algo in microalgos, as the ALGO record states it. */
  const ALGO_TOTAL: nat := 10000000000000000

  /** `makeAlgoAssetDataObj(amt)`: asset 0, named ALGO, with 6 decimals and the balance `amt`. */
  function MakeAlgoAssetDataObj(amt: nat): (r: AssetData)
    ensures r.id == 0 && r.amount == amt && !r.frozen && r.decimals == 6
    ensures r.name == Some("ALGO") && r.unitName == Some("ALGO") && r.total == 10000000000000000
  {
    AssetData(0, amt, false, 6, Some("ALGO"), Some("ALGO"), ALGO_TOTAL)
  }

  /** One holding, reshaped: decimals and total still 0, no name. */
  function Reshape(b: AssetBalance): AssetData {
    AssetData(b.assetId, b.amount, b.isFrozen, 0, None, None, 0)
  }

  /** `[algoAssetEntry, ...assetsFromRes.map(...)]` */
  function Reshaped(amount: nat, holdings: seq<AssetBalance>): seq<AssetData> {
    [MakeAlgoAssetDataObj(amount)] +
      seq(|holdings|, i requires 0 <= i < |holdings| => Reshape(holdings[i]))
  }

  /** The record after its lookup: name, unit, decimals and total. */
  function Fill(a: AssetData, params: AssetParams): AssetData {
    a.(name := params.name, unitName := params.unitName, decimals := params.decimals, total := params.total)
  }

  predicate LookupFails(assets: seq<AssetData>, lookup: AssetId -> Option<AssetParams>) {
    exists j :: 0 <= j < |assets| && assets[j].id > 0 && lookup(assets[j].id).None?
  }

  function FillOne(a: AssetData, lookup: AssetId -> Option<AssetParams>): AssetData
    requires a.id > 0 ==> lookup(a.id).Some?
  {
    if a.id > 0 then Fill(a, lookup(a.id).value) else a
  }

  /** The `Promise.all` fill: every record filled in, or `None` when a lookup fails. */
  function FillAll(assets: seq<AssetData>, lookup: AssetId -> Option<AssetParams>): Option<seq<AssetData>> {
    if LookupFails(assets, lookup) then None
    else Some(seq(|assets|, j requires 0 <= j < |assets| => FillOne(assets[j], lookup)))
  }
  /** One failed lookup fails the whole fill. */
  lemma FillAllFails(assets: seq<AssetData>, lookup: AssetId -> Option<AssetParams>, i: nat)
    requires i < |assets| && assets[i].id > 0 && lookup(assets[i].id).None?
    ensures FillAll(assets, lookup) == None
  {
  }

  /** Records filled one by one, every lookup having succeeded, are what the fill gives. */
  lemma FillAllSucceeds(assets: seq<AssetData>, lookup: AssetId -> Option<AssetParams>, filled: seq<AssetData>)
    requires |filled| == |assets|
    requires forall j :: 0 <= j < |assets| ==> assets[j].id > 0 ==> lookup(assets[j].id).Some?
    requires forall j :: 0 <= j < |assets| ==> filled[j] == FillOne(assets[j], lookup)
    ensures FillAll(assets, lookup) == Some(filled)
  {
    assert !LookupFails(assets, lookup);
    assert filled == seq(|assets|, j requires 0 <= j < |assets| => FillOne(assets[j], lookup));
  }


  /**
   * The signal after a fetch for an account whose information arrived. A
   * missing `assets` list makes `assetsFromRes.map` throw, which resets the
   * signal, the account's Algo balance included.
   */
  function FetchedInventory(info: AccountInfo, lookup: AssetId -> Option<AssetParams>): seq<AssetData> {
    match info.assets
    case None => [MakeAlgoAssetDataObj(0)]
    case Some(holdings) =>
      match FillAll(Reshaped(info.amount, holdings), lookup)
      case Some(assets) => assets
      case None => [MakeAlgoAssetDataObj(0)]
  }

  predicate AddressTruthy(addr: Option<string>) {
    addr.Some? && addr.value != ""
  }

  /**
   * The `Promise.all` over the ALGO record and the reshaped holdings: each
   * record with an id above 0 is filled from its lookup, in order; the first
   * failed lookup makes the whole fill fail.
   */
  method FillRecords(amount: nat, holdings: seq<AssetBalance>, lookup: AssetId -> Option<AssetParams>)
    returns (r: Option<seq<AssetData>>)
    ensures r == FillAll(Reshaped(amount, holdings), lookup)
  {
    var reshaped := Reshaped(amount, holdings);
    var assets := new AssetData[|reshaped|](i requires 0 <= i < |reshaped| => reshaped[i]);
    var i := 0;
    while i < assets.Length
      invariant 0 <= i <= assets.Length
      invariant forall j :: 0 <= j < i ==> reshaped[j].id > 0 ==> lookup(reshaped[j].id).Some?
      invariant forall j :: 0 <= j < i ==> assets[j] == FillOne(reshaped[j], lookup)
      invariant forall j :: i <= j < assets.Length ==> assets[j] == reshaped[j]
    {
      if assets[i].id > 0 {
        match lookup(assets[i].id)
        case None =>
          FillAllFails(reshaped, lookup, i);
          return None;
        case Some(params) =>
          assets[i] := Fill(assets[i], params);
      }
      i := i + 1;
    }
    FillAllSucceeds(reshaped, lookup, assets[..]);
    return Some(assets[..]);
  }

  /** The `accountAssets` signal of `useAssets`. */
  class AssetsState {
    var accountAssets: seq<AssetData>

    /** `createSignal([makeAlgoAssetDataObj(0)])` */
    constructor ()
      ensures accountAssets == [MakeAlgoAssetDataObj(0)]
    {
      accountAssets := [MakeAlgoAssetDataObj(0)];
    }

    /**
     * `fetchAccountInfo()`. Without a truthy address nothing happens; a failed
     * account query or lookup, or a missing `assets` list, resets the signal;
     * otherwise the signal becomes the filled records.
     */
    method FetchAccountInfo(addr: Option<string>, query: Option<AccountInfo>, lookup: AssetId -> Option<AssetParams>)
      modifies this
      ensures !AddressTruthy(addr) ==> accountAssets == old(accountAssets)
      ensures AddressTruthy(addr) && query.None? ==> accountAssets == [MakeAlgoAssetDataObj(0)]
      ensures AddressTruthy(addr) && query.Some? ==> accountAssets == FetchedInventory(query.value, lookup)
    {
      if !AddressTruthy(addr) {
        return;
      }
      if query.None? {
        accountAssets := [MakeAlgoAssetDataObj(0)];
        return;
      }
      var info := query.value;
      if info.assets.None? {
        // `assetsFromRes.map` on an `undefined` list throws
        accountAssets := [MakeAlgoAssetDataObj(0)];
        return;
      }
      var filled := FillRecords(info.amount, info.assets.value, lookup);
      match filled
      case None => accountAssets := [MakeAlgoAssetDataObj(0)];
      case Some(assets) => accountAssets := assets;
    }

    /** The reaction to a new address: the empty address resets the signal, any other fetches. */
    method OnAddressChange(addr: Option<string>, query: Option<AccountInfo>, lookup: AssetId -> Option<AssetParams>)
      modifies this
      ensures addr == Some("") ==> accountAssets == [MakeAlgoAssetDataObj(0)]
      ensures addr == None ==> accountAssets == old(accountAssets)
      ensures AddressTruthy(addr) && query.None? ==> accountAssets == [MakeAlgoAssetDataObj(0)]
      ensures AddressTruthy(addr) && query.Some? ==> accountAssets == FetchedInventory(query.value, lookup)
    {
      if addr == Some("") {
        accountAssets := [MakeAlgoAssetDataObj(0)];
      } else {
        FetchAccountInfo(addr, query, lookup);
      }
    }
  }

  /**
   * The record made for holding `h`: it keeps id, amount and frozen flag, and
   * takes name, unit, decimals and total from its lookup when its id is above
   * 0; the record for id 0 keeps decimals and total at 0.
   */
  predicate HoldingRecord(a: AssetData, h: AssetBalance, lookup: AssetId -> Option<AssetParams>) {
    && a.id == h.assetId && a.amount == h.amount && a.frozen == h.isFrozen
    && (h.assetId > 0 ==> lookup(h.assetId).Some? && a == AssetData(h.assetId, h.amount, h.isFrozen,
          lookup(h.assetId).value.decimals, lookup(h.assetId).value.name,
          lookup(h.assetId).value.unitName, lookup(h.assetId).value.total))
    && (h.assetId == 0 ==> a.decimals == 0 && a.total == 0)
  }

  /**
   * A fetched inventory that did not fail is the ALGO record for the
   * account's balance followed by one record per holding, in order; a
   * missing `assets` list, or a failed lookup of any holding, leaves the
   * single zero ALGO record.
   */
  lemma FetchedInventoryShape(info: AccountInfo, lookup: AssetId -> Option<AssetParams>)
    ensures info.assets.None? ==> FetchedInventory(info, lookup) == [MakeAlgoAssetDataObj(0)]
    ensures info.assets.Some? ==>
            var holdings := info.assets.value;
            var inv := FetchedInventory(info, lookup);
            var rest := Reshaped(info.amount, holdings)[1..];
            (LookupFails(rest, lookup) ==> inv == [MakeAlgoAssetDataObj(0)]) &&
            (!LookupFails(rest, lookup) ==>
               |inv| == 1 + |holdings| && inv[0] == MakeAlgoAssetDataObj(info.amount) &&
               forall j :: 0 <= j < |holdings| ==> HoldingRecord(inv[j + 1], holdings[j], lookup))
  {
    match info.assets
    case None =>
    case Some(holdings) =>
      if LookupFails(Reshaped(info.amount, holdings)[1..], lookup) {
        FailedLookupResets(info, holdings, lookup);
      } else {
        FilledInventory(info, holdings, lookup);
      }
  }

  lemma FailedLookupResets(info: AccountInfo, holdings: seq<AssetBalance>, lookup: AssetId -> Option<AssetParams>)
    requires info.assets == Some(holdings)
    requires LookupFails(Reshaped(info.amount, holdings)[1..], lookup)
    ensures FetchedInventory(info, lookup) == [MakeAlgoAssetDataObj(0)]
  {
    var all := Reshaped(info.amount, holdings);
    var rest := all[1..];
    var j :| 0 <= j < |rest| && rest[j].id > 0 && lookup(rest[j].id).None?;
    assert all[j + 1] == rest[j];
  }

  lemma FilledInventory(info: AccountInfo, holdings: seq<AssetBalance>, lookup: AssetId -> Option<AssetParams>)
    requires info.assets == Some(holdings)
    requires !LookupFails(Reshaped(info.amount, holdings)[1..], lookup)
    ensures var inv := FetchedInventory(info, lookup);
            |inv| == 1 + |holdings| && inv[0] == MakeAlgoAssetDataObj(info.amount) &&
            forall j :: 0 <= j < |holdings| ==> HoldingRecord(inv[j + 1], holdings[j], lookup)
  {
    var all := Reshaped(info.amount, holdings);
    var rest := all[1..];
    assert !LookupFails(all, lookup) by {
      forall j | 0 <= j < |all| && all[j].id > 0
        ensures lookup(all[j].id).Some?
      {
        assert all[j] == rest[j - 1];
      }
    }
    var inv := FetchedInventory(info, lookup);
    assert inv == seq(|all|, j requires 0 <= j < |all| => FillOne(all[j], lookup));
    forall j | 0 <= j < |holdings|
      ensures HoldingRecord(inv[j + 1], holdings[j], lookup)
    {
      assert all[j + 1] == Reshape(holdings[j]);
      assert inv[j + 1] == FillOne(all[j + 1], lookup);
    }
  }

  /** The ALGO record comes first in every inventory this hook holds. */
  lemma AlgoRecordFirst(info: AccountInfo, lookup: AssetId -> Option<AssetParams>)
    ensures var inv := FetchedInventory(info, lookup);
            |inv| >= 1 && inv[0].id == 0 && inv[0].decimals == 6 && inv[0].name == Some("ALGO") &&
            (inv[0].amount == info.amount || inv == [MakeAlgoAssetDataObj(0)])
  {
  }
}
