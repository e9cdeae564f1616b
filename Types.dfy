/**
 * The records of src/lib/types.ts: an account snapshot as the node returns it,
 * one asset balance inside it, and the asset record the burn page works with.
 */
module Types {
  import opened Wrappers

  type Address = string
  type AssetId = nat

  /** One entry of an account's `assets` list: "asset-id", amount, "is-frozen". */
  datatype AssetBalance = AssetBalance(amount: nat, assetId: AssetId, isFrozen: bool)

  /**
   * An account snapshot; `minBalance` is the "min-balance" field. The node
   * leaves the `assets` list out of the snapshot of an account that holds no
   * asset, so it is an `Option`.
   */
  datatype AccountInfo = AccountInfo(
    address: Address,
    amount: nat,
    assets: Option<seq<AssetBalance>>,
    minBalance: nat)

  /**
   * One asset as listed on the burn page. Base units are `nat`, the decimal
   * amount is an exact rational. Optional properties of the TypeScript
   * interface are `Option`s; `creator` is one too, because the inventory
   * builders never fill it in.
   */
  datatype BonfireAssetData = BonfireAssetData(
    id: AssetId,
    amount: nat,
    frozen: bool,
    decimals: nat,
    name: Option<string>,
    unitName: Option<string>,
    total: nat,
    decimalAmount: real,
    creator: Option<Address>,
    reserve: Option<Address>,
    url: Option<string>,
    imageSrc: Option<string>)

  /**
   * The `params` of an asset as the node's asset lookup returns them: the
   * fields the inventory builders copy.
   */
  datatype AssetParams = AssetParams(
    name: Option<string>,
    unitName: Option<string>,
    decimals: nat,
    total: nat)

  /** The four networks the configuration table knows. */
  datatype NetworkName = MainNet | TestNet | BetaNet | LocalNet
}
