/**
 * The burn page of src/components/Main.tsx: `burn()` assembles one atomic
 * group from the selected assets (a top-up payment to the burn contract, the
 * contract's ARC-54 opt-in calls, then one asset transfer per asset),
 * `donateLogs()` builds a single payment, and two predicates say when the
 * buttons are enabled.
 *
 * The SDK constructors become the `Txn` datatype and the app client's
 * composer becomes `GroupComposer`, whose transaction list grows one call at a
 * time. Signing and submission are outside the model: a composed group is the
 * outcome.
 */
module MainComponent {
  import opened Wrappers
  import opened Types
  import opened Utilities

  // ---------------------------------------------------------------------------
  // Transactions and the group composer

  /** `suggestedParams` with `flatFee` set to a fixed fee, or left as the node suggests. */
  datatype Fee = FlatFee(microAlgos: nat) | SuggestedFee

  /** The three kinds of transaction the page builds. */
  datatype Txn =
    | Payment(from: Address, to: Address, amount: real, fee: Fee)
    | OptInCall(asa: AssetId, callFee: nat)
    | AssetTransfer(from: Address, to: Address, assetIndex: AssetId, amount: real,
                    closeRemainderTo: Option<Address>, fee: Fee)

  /** `bonfireClient().compose()`: collects the group in call order. */
  class GroupComposer {
    var txns: seq<Txn>

    constructor ()
      ensures txns == []
    {
      txns := [];
    }

    /** `addTransaction(txn)` */
    method AddTransaction(t: Txn)
      modifies this
      ensures txns == old(txns) + [t]
    {
      txns := txns + [t];
    }

    /** `arc54OptIntoAsa({ asa }, { fee })`: one application call of the burn contract. */
    method Arc54OptIntoAsa(asa: AssetId, fee: nat)
      modifies this
      ensures txns == old(txns) + [OptInCall(asa, fee)]
    {
      txns := txns + [OptInCall(asa, fee)];
    }
  }

  // ---------------------------------------------------------------------------
  // The selection

  predicate StrictlyAscending(keys: seq<nat>) {
    forall i, j :: 0 <= i < j < |keys| ==> keys[i] < keys[j]
  }

  /**
   * The keys of the row-selection record as `Object.entries` lists them:
   * integer-like keys come out in ascending numeric order.
   */
  type EntryKeys = keys: seq<nat> | StrictlyAscending(keys)

  /** `burnableAsas()[k]`: `undefined` past the end. */
  function Lookup(rows: seq<BonfireAssetData>, k: nat): (r: Option<BonfireAssetData>)
    ensures r.Some? <==> k < |rows|
    ensures r.Some? ==> r.value == rows[k]
  {
    if k < |rows| then Some(rows[k]) else None
  }

  /** `assetsToBurn`: the row each key names, `undefined` where it names none. */
  function Lookups(rows: seq<BonfireAssetData>, keys: seq<nat>): seq<Option<BonfireAssetData>> {
    seq(|keys|, j requires 0 <= j < |keys| => Lookup(rows, keys[j]))
  }

  /** The list without its `undefined` entries, provided it has none. */
  function Defined(xs: seq<Option<BonfireAssetData>>): (r: Option<seq<BonfireAssetData>>)
    ensures r.Some? <==> forall j :: 0 <= j < |xs| ==> xs[j].Some?
    ensures r.Some? ==> |r.value| == |xs| && forall j :: 0 <= j < |xs| ==> xs[j] == Some(r.value[j])
  {
    if forall j :: 0 <= j < |xs| ==> xs[j].Some? then
      Some(seq(|xs|, j requires 0 <= j < |xs| && xs[j].Some? => xs[j].value))
    else
      None
  }

  /** The rows the keys name, in key order; `None` when a key has no row. */
  function SelectedAssets(rows: seq<BonfireAssetData>, keys: seq<nat>): (r: Option<seq<BonfireAssetData>>)
    ensures r.Some? <==> forall j :: 0 <= j < |keys| ==> keys[j] < |rows|
    ensures r.Some? ==> |r.value| == |keys| && forall j :: 0 <= j < |keys| ==> r.value[j] == rows[keys[j]]
  {
    var lookups := Lookups(rows, keys);
    assert forall j :: 0 <= j < |keys| ==> (lookups[j].Some? <==> keys[j] < |rows|);
    Defined(lookups)
  }

  // ---------------------------------------------------------------------------
  // The decisions burn() makes per asset

  /** `assets.find((a) => a["asset-id"] === id)` */
  function FindAsset(assets: seq<AssetBalance>, id: AssetId): (r: Option<AssetBalance>)
    ensures r.Some? <==> exists j :: 0 <= j < |assets| && assets[j].assetId == id
    ensures r.Some? ==> exists j :: 0 <= j < |assets| && assets[j] == r.value && r.value.assetId == id &&
                                   forall k :: 0 <= k < j ==> assets[k].assetId != id
  {
    if |assets| == 0 then None
    else if assets[0].assetId == id then Some(assets[0])
    else
      var r := FindAsset(assets[1..], id);
      if r.Some? then
        var j :| 0 <= j < |assets[1..]| && assets[1..][j] == r.value && r.value.assetId == id &&
                 forall k :: 0 <= k < j ==> assets[1..][k].assetId != id;
        assert assets[j + 1] == r.value;
        r
      else
        r
  }

  /** The burn contract already holds the asset: some entry of its `assets` has that `asset-id`. */
  predicate ContractHolds(bonfireInfo: Option<AccountInfo>, id: AssetId) {
    bonfireInfo.Some? && bonfireInfo.value.assets.Some? &&
    exists b :: b in bonfireInfo.value.assets.value && b.assetId == id
  }

  /**
   * `bonfireInfo()?.assets.find(...)` throws: the contract's information is
   * loaded but has no `assets` list. The `&&` evaluates it only for an asset
   * with a positive balance.
   */
  predicate FindThrows(a: BonfireAssetData, bonfireInfo: Option<AccountInfo>) {
    a.amount > 0 && bonfireInfo.Some? && bonfireInfo.value.assets.None?
  }

  /** Visiting the entry throws: it is `undefined`, or its `find` throws. */
  predicate VisitThrows(x: Option<BonfireAssetData>, bonfireInfo: Option<AccountInfo>) {
    x.None? || FindThrows(x.value, bonfireInfo)
  }

  /** The contract must opt into the asset first: the user holds some, the contract none. */
  predicate NeedsOptIn(a: BonfireAssetData, bonfireInfo: Option<AccountInfo>) {
    a.amount > 0 && !ContractHolds(bonfireInfo, a.id)
  }

  /** `optInAssets` after visiting `assets` in order: never more opt-ins than assets. */
  function OptInQueue(assets: seq<BonfireAssetData>, bonfireInfo: Option<AccountInfo>): (queue: seq<AssetId>)
    ensures |queue| <= |assets|
  {
    if |assets| == 0 then []
    else
      var last := assets[|assets| - 1];
      OptInQueue(assets[..|assets| - 1], bonfireInfo) + (if NeedsOptIn(last, bonfireInfo) then [last.id] else [])
  }

  /** The decimal amount to burn is the whole balance. */
  predicate FullAmount(a: BonfireAssetData) {
    MakeIntegerAmount(a.decimalAmount, a.decimals) == a.amount as real
  }

  /**
   * `closeRemainder(asset)`: the holding is closed out to the contract iff
   * the whole balance is burnt and the sender did not create the asset;
   * otherwise it is not closed out at all.
   */
  function CloseRemainderTo(a: BonfireAssetData, sender: Address, contract: Address): (r: Option<Address>)
    ensures r == Some(contract) <==> FullAmount(a) && a.creator != Some(sender)
    ensures r != Some(contract) ==> r.None?
  {
    if FullAmount(a) then
      if a.creator == Some(sender) then None else Some(contract)
    else
      None
  }

  /** The `axfer` built for one asset. */
  function TransferOf(sender: Address, contract: Address, minFee: nat, a: BonfireAssetData): Txn {
    AssetTransfer(sender, contract, a.id, MakeIntegerAmount(a.decimalAmount, a.decimals),
                  CloseRemainderTo(a, sender, contract), FlatFee(minFee))
  }

  /** `axfers`: one transfer per visited asset. */
  function Transfers(sender: Address, contract: Address, minFee: nat, assets: seq<BonfireAssetData>): seq<Txn> {
    seq(|assets|, i requires 0 <= i < |assets| => TransferOf(sender, contract, minFee, assets[i]))
  }

  /** The opt-in calls, one per queued id, each paying `fee`. */
  function OptInCalls(ids: seq<AssetId>, fee: nat): seq<Txn> {
    seq(|ids|, i requires 0 <= i < |ids| => OptInCall(ids[i], fee))
  }

  /**
   * `Math.max(numOptInCalls - extraLogs, 0)`: the fewest top-ups that, with
   * the holdings the contract's balance already pays for, cover every new
   * opt-in.
   */
  function MbrPaymentCount(numOptInCalls: nat, extraLogs: int): (n: nat)
    ensures n + extraLogs >= numOptInCalls
    ensures n == 0 || n + extraLogs == numOptInCalls
  {
    if numOptInCalls - extraLogs > 0 then numOptInCalls - extraLogs else 0
  }

  /** The top-up payment, present only when one is owed. */
  function MbrPayment(sender: Address, contract: Address, minFee: nat, n: nat): seq<Txn> {
    if n > 0 then [Payment(sender, contract, (LOG_COST * n) as real, FlatFee(minFee))] else []
  }

  /** The group as burn() hands it to `execute()`. */
  function PlannedGroup(sender: Address, contract: Address, minFee: nat, n: nat,
                        queue: seq<AssetId>, assets: seq<BonfireAssetData>): seq<Txn> {
    MbrPayment(sender, contract, minFee, n) + OptInCalls(queue, 2 * minFee) + Transfers(sender, contract, minFee, assets)
  }

  /**
   * What a click on Burn leads to. `NothingSent`: the selection is empty.
   * `BurnFailed`: an exception reached the `catch` (a key without a row, a
   * `find` on a missing `assets` list, or no contract account information).
   * `Composed`: the group to sign, with the `slots` counter.
   */
  datatype BurnOutcome = NothingSent | BurnFailed | Composed(group: seq<Txn>, slots: nat)

  /**
   * The reference definition of burn(): nothing is sent exactly when the
   * selection is empty, and a composed group counts at least one slot per
   * selected key.
   */
  function BurnPlan(sender: Address, contract: Address, minFee: nat, burnable: seq<BonfireAssetData>,
                    keys: seq<nat>, bonfireInfo: Option<AccountInfo>): (o: BurnOutcome)
    ensures o == NothingSent <==> |keys| == 0
    ensures o.Composed? ==> o.slots >= |keys|
  {
    if |keys| == 0 then NothingSent
    else
      match SelectedAssets(burnable, keys)
      case None => BurnFailed
      case Some(assets) =>
        if bonfireInfo.None? || exists j :: 0 <= j < |assets| && FindThrows(assets[j], bonfireInfo) then BurnFailed
        else
          var queue := OptInQueue(assets, bonfireInfo);
          var n := MbrPaymentCount(|queue|, CalcExtraLogs(bonfireInfo.value));
          Composed(PlannedGroup(sender, contract, minFee, n, queue, assets), |queue| + |assets|)
  }

  // ---------------------------------------------------------------------------
  // burn()

  /** `Object.entries(rowSelection()).forEach(([k]) => assetsToBurn.push(burnableAsas()[Number(k)]))` */
  method CollectAssetsToBurn(burnable: seq<BonfireAssetData>, keys: EntryKeys) returns (assetsToBurn: seq<Option<BonfireAssetData>>)
    ensures assetsToBurn == Lookups(burnable, keys)
  {
    assetsToBurn := [];
    var e := 0;
    while e < |keys|
      invariant 0 <= e <= |keys|
      invariant assetsToBurn == Lookups(burnable, keys[..e])
    {
      assert Lookups(burnable, keys[..e + 1]) == assetsToBurn + [Lookup(burnable, keys[e])];
      assetsToBurn := assetsToBurn + [Lookup(burnable, keys[e])];
      e := e + 1;
    }
    assert keys[..e] == keys;
  }

  /**
   * The `for` loop of burn(): visits the assets in order, queues opt-ins,
   * builds one transfer each and counts slots. `failed` when visiting an
   * entry throws: an `undefined` entry, whose `.amount` throws, or a `find`
   * on a missing `assets` list.
   */
  method VisitAssets(sender: Address, contract: Address, minFee: nat,
                     assetsToBurn: seq<Option<BonfireAssetData>>, bonfireInfo: Option<AccountInfo>)
    returns (failed: bool, optInAssets: seq<AssetId>, numOptInCalls: nat, axfers: seq<Txn>, slots: nat)
    ensures failed <==> exists j :: 0 <= j < |assetsToBurn| && VisitThrows(assetsToBurn[j], bonfireInfo)
    ensures !failed ==>
              Defined(assetsToBurn).Some? &&
              var assets := Defined(assetsToBurn).value;
              optInAssets == OptInQueue(assets, bonfireInfo) && numOptInCalls == |optInAssets| &&
              axfers == Transfers(sender, contract, minFee, assets) && slots == numOptInCalls + |assets|
  {
    slots, numOptInCalls, optInAssets, axfers := 0, 0, [], [];
    ghost var visited: seq<BonfireAssetData> := [];
    var i := 0;
    while i < |assetsToBurn|
      invariant 0 <= i <= |assetsToBurn|
      invariant |visited| == i
      invariant forall j :: 0 <= j < i ==> assetsToBurn[j] == Some(visited[j])
      invariant forall j :: 0 <= j < i ==> !FindThrows(visited[j], bonfireInfo)
      invariant optInAssets == OptInQueue(visited, bonfireInfo)
      invariant numOptInCalls == |optInAssets|
      invariant axfers == Transfers(sender, contract, minFee, visited)
      invariant slots == numOptInCalls + i
    {
      match assetsToBurn[i]
      case None =>
        return true, optInAssets, numOptInCalls, axfers, slots;
      case Some(assetToBurn) =>
        var notHeld := false;
        if assetToBurn.amount > 0 {
          match bonfireInfo
          case None =>
            notHeld := true;
          case Some(info) =>
            match info.assets
            case None =>
              // `.find` on an `undefined` list throws
              return true, optInAssets, numOptInCalls, axfers, slots;
            case Some(held) =>
              notHeld := FindAsset(held, assetToBurn.id) == None;
        }
        FindAssetDecidesHolding(bonfireInfo, assetToBurn.id);
        OptInQueueSnoc(visited, assetToBurn, bonfireInfo);
        if notHeld {
          optInAssets := optInAssets + [assetToBurn.id];
          numOptInCalls := numOptInCalls + 1;
          slots := slots + 1;
        }
        var closeRemainderAddr := CloseRemainderTo(assetToBurn, sender, contract);
        var axfer := AssetTransfer(sender, contract, assetToBurn.id,
                                   MakeIntegerAmount(assetToBurn.decimalAmount, assetToBurn.decimals),
                                   closeRemainderAddr, FlatFee(minFee));
        TransfersSnoc(sender, contract, minFee, visited, assetToBurn);
        axfers := axfers + [axfer];
        slots := slots + 1;
        visited := visited + [assetToBurn];
        i := i + 1;
    }
    failed := false;
    DefinedAll(assetsToBurn, visited);
  }

  /** `find` on the contract's holdings answers whether the contract holds the asset. */
  lemma FindAssetDecidesHolding(bonfireInfo: Option<AccountInfo>, id: AssetId)
    ensures (bonfireInfo.Some? && bonfireInfo.value.assets.Some? && FindAsset(bonfireInfo.value.assets.value, id).Some?)
            <==> ContractHolds(bonfireInfo, id)
  {
    if ContractHolds(bonfireInfo, id) {
      var held := bonfireInfo.value.assets.value;
      var b :| b in held && b.assetId == id;
      var j :| 0 <= j < |held| && held[j] == b;
    }
  }

  lemma OptInQueueSnoc(visited: seq<BonfireAssetData>, a: BonfireAssetData, bonfireInfo: Option<AccountInfo>)
    ensures OptInQueue(visited + [a], bonfireInfo)
         == OptInQueue(visited, bonfireInfo) + (if NeedsOptIn(a, bonfireInfo) then [a.id] else [])
  {
    assert (visited + [a])[..|visited|] == visited;
  }

  lemma TransfersSnoc(sender: Address, contract: Address, minFee: nat, visited: seq<BonfireAssetData>, a: BonfireAssetData)
    ensures Transfers(sender, contract, minFee, visited + [a])
         == Transfers(sender, contract, minFee, visited) + [TransferOf(sender, contract, minFee, a)]
  {
  }

  lemma DefinedAll(xs: seq<Option<BonfireAssetData>>, vs: seq<BonfireAssetData>)
    requires |vs| == |xs| && forall j :: 0 <= j < |xs| ==> xs[j] == Some(vs[j])
    ensures Defined(xs) == Some(vs)
  {
    assert Defined(xs).Some?;
    assert Defined(xs).value == vs;
  }

  /**
   * The tail of burn(): the top-up payment when one is owed, then an opt-in
   * call per queued id at twice the minimum fee, then the transfers, each
   * added to the composer in turn.
   */
  method ComposeGroup(sender: Address, contract: Address, minFee: nat, numMBRPayments: nat,
                      optInAssets: seq<AssetId>, axfers: seq<Txn>) returns (txns: seq<Txn>)
    ensures txns == MbrPayment(sender, contract, minFee, numMBRPayments) + OptInCalls(optInAssets, 2 * minFee) + axfers
  {
    var group := new GroupComposer();
    if numMBRPayments > 0 {
      group.AddTransaction(Payment(sender, contract, (LOG_COST * numMBRPayments) as real, FlatFee(minFee)));
    }
    ghost var head := MbrPayment(sender, contract, minFee, numMBRPayments);

    var k := 0;
    while k < |optInAssets|
      invariant 0 <= k <= |optInAssets|
      invariant group.txns == head + OptInCalls(optInAssets[..k], 2 * minFee)
    {
      assert OptInCalls(optInAssets[..k + 1], 2 * minFee) == OptInCalls(optInAssets[..k], 2 * minFee) + [OptInCall(optInAssets[k], 2 * minFee)];
      group.Arc54OptIntoAsa(optInAssets[k], 2 * minFee);
      k := k + 1;
    }
    assert optInAssets[..k] == optInAssets;

    k := 0;
    while k < |axfers|
      invariant 0 <= k <= |axfers|
      invariant group.txns == head + OptInCalls(optInAssets, 2 * minFee) + axfers[..k]
    {
      assert axfers[..k + 1] == axfers[..k] + [axfers[k]];
      group.AddTransaction(axfers[k]);
      k := k + 1;
    }
    assert axfers[..k] == axfers;
    txns := group.txns;
  }

  /**
   * `burn()`, from the selection to the composed group. `sender` is the
   * connected address, `contract` the burn contract's address, `minFee` the
   * node's minimum fee and `bonfireInfo` the contract's account information,
   * `None` while it is not loaded.
   */
  method Burn(sender: Address, contract: Address, minFee: nat, burnable: seq<BonfireAssetData>,
              keys: EntryKeys, bonfireInfo: Option<AccountInfo>) returns (outcome: BurnOutcome)
    ensures outcome == BurnPlan(sender, contract, minFee, burnable, keys, bonfireInfo)
    ensures outcome == NothingSent <==> |keys| == 0
  {
    var assetsToBurn := CollectAssetsToBurn(burnable, keys);
    if |assetsToBurn| == 0 {
      return NothingSent;
    }
    var failed, optInAssets, numOptInCalls, axfers, slots := VisitAssets(sender, contract, minFee, assetsToBurn, bonfireInfo);
    if failed {
      VisitFailureFailsPlan(sender, contract, minFee, burnable, keys, bonfireInfo);
      return BurnFailed;
    }
    if bonfireInfo.None? {
      // calcExtraLogs(undefined) throws
      return BurnFailed;
    }
    VisitSuccessFindsNoThrow(burnable, keys, bonfireInfo);
    var extraLogs := CalcExtraLogs(bonfireInfo.value);
    var numMBRPayments: nat := if numOptInCalls - extraLogs > 0 then numOptInCalls - extraLogs else 0;
    var txns := ComposeGroup(sender, contract, minFee, numMBRPayments, optInAssets, axfers);
    outcome := Composed(txns, slots);
  }

  /** An entry whose visit throws makes the reference plan fail too. */
  lemma VisitFailureFailsPlan(sender: Address, contract: Address, minFee: nat, burnable: seq<BonfireAssetData>,
                              keys: seq<nat>, bonfireInfo: Option<AccountInfo>)
    requires exists j :: 0 <= j < |keys| && VisitThrows(Lookups(burnable, keys)[j], bonfireInfo)
    ensures BurnPlan(sender, contract, minFee, burnable, keys, bonfireInfo) == BurnFailed
  {
    var xs := Lookups(burnable, keys);
    var j :| 0 <= j < |keys| && VisitThrows(xs[j], bonfireInfo);
    if SelectedAssets(burnable, keys).Some? {
      var assets := SelectedAssets(burnable, keys).value;
      assert xs[j] == Some(assets[j]);
      assert FindThrows(assets[j], bonfireInfo);
    }
  }

  /** When no visit throws, no selected asset's `find` throws. */
  lemma VisitSuccessFindsNoThrow(burnable: seq<BonfireAssetData>, keys: seq<nat>, bonfireInfo: Option<AccountInfo>)
    requires forall j :: 0 <= j < |keys| ==> !VisitThrows(Lookups(burnable, keys)[j], bonfireInfo)
    ensures SelectedAssets(burnable, keys).Some?
    ensures var assets := SelectedAssets(burnable, keys).value;
            forall j :: 0 <= j < |assets| ==> !FindThrows(assets[j], bonfireInfo)
  {
    var xs := Lookups(burnable, keys);
    assert SelectedAssets(burnable, keys) == Defined(xs);
    var assets := SelectedAssets(burnable, keys).value;
    forall j | 0 <= j < |assets|
      ensures !FindThrows(assets[j], bonfireInfo)
    {
      assert xs[j] == Some(assets[j]);
    }
  }

  // ---------------------------------------------------------------------------
  // Properties of the plan

  /** An asset id is queued for opt-in iff some visited asset with that id needs one. */
  lemma {:induction false} OptInQueueMembership(assets: seq<BonfireAssetData>, bonfireInfo: Option<AccountInfo>, id: AssetId)
    ensures id in OptInQueue(assets, bonfireInfo) <==>
            exists j :: 0 <= j < |assets| && assets[j].id == id && NeedsOptIn(assets[j], bonfireInfo)
  {
    if |assets| > 0 {
      var init := assets[..|assets| - 1];
      OptInQueueMembership(init, bonfireInfo, id);
      if exists j :: 0 <= j < |init| && init[j].id == id && NeedsOptIn(init[j], bonfireInfo) {
        var j :| 0 <= j < |init| && init[j].id == id && NeedsOptIn(init[j], bonfireInfo);
        assert assets[j] == init[j];
      }
      if exists j :: 0 <= j < |assets| && assets[j].id == id && NeedsOptIn(assets[j], bonfireInfo) {
        var j :| 0 <= j < |assets| && assets[j].id == id && NeedsOptIn(assets[j], bonfireInfo);
        if j < |init| {
          assert init[j] == assets[j];
        }
      }
    }
  }

  /** The queue keeps visiting order: queueing two runs of assets is queueing each in turn. */
  lemma {:induction false} OptInQueueAppend(a: seq<BonfireAssetData>, b: seq<BonfireAssetData>, bonfireInfo: Option<AccountInfo>)
    ensures OptInQueue(a + b, bonfireInfo) == OptInQueue(a, bonfireInfo) + OptInQueue(b, bonfireInfo)
  {
    if |b| == 0 {
      assert a + b == a;
    } else {
      var binit := b[..|b| - 1];
      assert (a + b)[..|a + b| - 1] == a + binit;
      OptInQueueAppend(a, binit, bonfireInfo);
    }
  }

  /**
   * Every selected asset yields exactly one transfer, zero balances
   * included: from the sender to the contract, for that asset id, of the
   * decimal amount in base units, with the flat fee.
   */
  lemma OneTransferPerAsset(sender: Address, contract: Address, minFee: nat, assets: seq<BonfireAssetData>)
    ensures |Transfers(sender, contract, minFee, assets)| == |assets|
    ensures forall j :: 0 <= j < |assets| ==>
              var t := Transfers(sender, contract, minFee, assets)[j];
              t.AssetTransfer? && t.from == sender && t.to == contract && t.assetIndex == assets[j].id &&
              t.amount == MakeIntegerAmount(assets[j].decimalAmount, assets[j].decimals) &&
              t.fee == FlatFee(minFee)
  {
  }

  /**
   * A transfer closes the sender's holding out to the contract iff it burns
   * the whole balance and the sender is not the asset's creator; it never
   * closes out anywhere else.
   */
  lemma CloseOutRule(sender: Address, contract: Address, minFee: nat, assets: seq<BonfireAssetData>, j: nat)
    requires j < |assets|
    ensures Transfers(sender, contract, minFee, assets)[j].closeRemainderTo == Some(contract) <==>
            FullAmount(assets[j]) && assets[j].creator != Some(sender)
    ensures Transfers(sender, contract, minFee, assets)[j].closeRemainderTo != Some(contract) ==>
            Transfers(sender, contract, minFee, assets)[j].closeRemainderTo == None
  {
  }

  /**
   * The top-up keeps the contract funded: after the payment its balance
   * covers the minimum balance raised by one holding per opt-in, and one
   * payment fewer would not.
   */
  lemma TopUpCoversOptIns(contractInfo: AccountInfo, numOptInCalls: nat)
    ensures var n := MbrPaymentCount(numOptInCalls, CalcExtraLogs(contractInfo));
            contractInfo.amount + LOG_COST * n >= contractInfo.minBalance + LOG_COST * numOptInCalls &&
            (n > 0 ==> contractInfo.amount + LOG_COST * (n - 1) < contractInfo.minBalance + LOG_COST * numOptInCalls)
  {
    var extra := CalcExtraLogs(contractInfo);
    var n := MbrPaymentCount(numOptInCalls, extra);
    var spare := contractInfo.amount - contractInfo.minBalance;
    assert extra * LOG_COST <= spare < (extra + 1) * LOG_COST;
    assert (n + extra) * LOG_COST >= numOptInCalls * LOG_COST by {
      assert n + extra >= numOptInCalls;
    }
    if n > 0 {
      assert n + extra == numOptInCalls;
      assert (n - 1 + extra + 1) * LOG_COST == numOptInCalls * LOG_COST;
    }
  }

  /**
   * The layout of a composed group: the payment first when one is owed,
   * then one opt-in call per queued id in queue order at twice the minimum
   * fee, then the transfers in selection order at the minimum fee. Only the
   * first transaction can be a payment.
   */
  lemma {:induction false} GroupLayout(sender: Address, contract: Address, minFee: nat, n: nat,
                                       queue: seq<AssetId>, assets: seq<BonfireAssetData>)
    ensures var g := PlannedGroup(sender, contract, minFee, n, queue, assets);
            var p := if n > 0 then 1 else 0;
            |g| == p + |queue| + |assets| &&
            (n > 0 ==> g[0] == Payment(sender, contract, (LOG_COST * n) as real, FlatFee(minFee))) &&
            (forall i :: 0 <= i < |g| ==> (g[i].Payment? <==> i == 0 && n > 0)) &&
            (forall j :: 0 <= j < |queue| ==> g[p + j] == OptInCall(queue[j], 2 * minFee)) &&
            (forall j :: 0 <= j < |assets| ==> g[p + |queue| + j] == TransferOf(sender, contract, minFee, assets[j]))
  {
    var g := PlannedGroup(sender, contract, minFee, n, queue, assets);
    var head := MbrPayment(sender, contract, minFee, n);
    var calls := OptInCalls(queue, 2 * minFee);
    var transfers := Transfers(sender, contract, minFee, assets);
    assert g == head + calls + transfers;
    forall i | 0 <= i < |g|
      ensures g[i].Payment? <==> i == 0 && n > 0
    {
      if i < |head| {
        assert g[i] == head[i];
      } else if i < |head| + |calls| {
        assert g[i] == calls[i - |head|];
      } else {
        assert g[i] == transfers[i - |head| - |calls|];
      }
    }
  }

  /** Opt-in calls pay twice the minimum fee; every other transaction of the group pays the flat minimum. */
  lemma GroupFees(sender: Address, contract: Address, minFee: nat, n: nat,
                  queue: seq<AssetId>, assets: seq<BonfireAssetData>)
    ensures var g := PlannedGroup(sender, contract, minFee, n, queue, assets);
            forall i :: 0 <= i < |g| ==>
              if g[i].OptInCall? then g[i].callFee == 2 * minFee else g[i].fee == FlatFee(minFee)
  {
    var g := PlannedGroup(sender, contract, minFee, n, queue, assets);
    var head := MbrPayment(sender, contract, minFee, n);
    var calls := OptInCalls(queue, 2 * minFee);
    var transfers := Transfers(sender, contract, minFee, assets);
    forall i | 0 <= i < |g|
      ensures if g[i].OptInCall? then g[i].callFee == 2 * minFee else g[i].fee == FlatFee(minFee)
    {
      if i < |head| {
        assert g[i] == head[i];
      } else if i < |head| + |calls| {
        assert g[i] == calls[i - |head|];
      } else {
        assert g[i] == transfers[i - |head| - |calls|];
      }
    }
  }

  /**
   * When burn() composes a group: a non-empty selection whose keys all name
   * rows, with the contract's information loaded and, when a selected asset
   * has a positive balance, its `assets` list present. `slots` then counts the
   * opt-in calls and the transfers, which is every transaction but the
   * payment, and the group holds one transfer per selected key.
   */
  lemma BurnOutcomes(sender: Address, contract: Address, minFee: nat, burnable: seq<BonfireAssetData>,
                     keys: seq<nat>, bonfireInfo: Option<AccountInfo>)
    ensures var o := BurnPlan(sender, contract, minFee, burnable, keys, bonfireInfo);
            (o == NothingSent <==> |keys| == 0) &&
            (o == BurnFailed <==>
               (|keys| > 0 &&
                (bonfireInfo.None? ||
                 exists j :: 0 <= j < |keys| && (keys[j] >= |burnable| || FindThrows(burnable[keys[j]], bonfireInfo))))) &&
            (o.Composed? ==>
               var n := MbrPaymentCount(o.slots - |keys|, CalcExtraLogs(bonfireInfo.value));
               o.slots >= |keys| &&
               |o.group| == (if n > 0 then 1 else 0) + o.slots) &&
            (o.Composed? ==>
               SelectedAssets(burnable, keys).Some? && bonfireInfo.Some? &&
               var assets := SelectedAssets(burnable, keys).value;
               var queue := OptInQueue(assets, bonfireInfo);
               o.slots == |queue| + |keys| &&
               o.group == PlannedGroup(sender, contract, minFee, MbrPaymentCount(|queue|, CalcExtraLogs(bonfireInfo.value)),
                                       queue, assets))
  {
    var o := BurnPlan(sender, contract, minFee, burnable, keys, bonfireInfo);
    if |keys| > 0 && SelectedAssets(burnable, keys).Some? {
      var assets := SelectedAssets(burnable, keys).value;
      if exists j :: 0 <= j < |keys| && FindThrows(burnable[keys[j]], bonfireInfo) {
        var j :| 0 <= j < |keys| && FindThrows(burnable[keys[j]], bonfireInfo);
        assert FindThrows(assets[j], bonfireInfo);
      }
      if exists j :: 0 <= j < |assets| && FindThrows(assets[j], bonfireInfo) {
        var j :| 0 <= j < |assets| && FindThrows(assets[j], bonfireInfo);
        assert FindThrows(burnable[keys[j]], bonfireInfo);
      }
    }
    if o.Composed? {
      var assets := SelectedAssets(burnable, keys).value;
      var queue := OptInQueue(assets, bonfireInfo);
      var n := MbrPaymentCount(|queue|, CalcExtraLogs(bonfireInfo.value));
      GroupLayout(sender, contract, minFee, n, queue, assets);
      assert o.slots == |queue| + |keys|;
    }
  }

  // ---------------------------------------------------------------------------
  // Buttons and donateLogs()

  /**
   * The Burn button's `disabled` expression, negated: a wallet is connected,
   * at least one row is selected and the group is not over-full.
   */
  predicate BurnEnabled(walletConnected: bool, numSelected: nat, groupOverFull: bool)
    ensures BurnEnabled(walletConnected, numSelected, groupOverFull) <==>
              walletConnected && numSelected >= 1 && !groupOverFull
  {
    !(!walletConnected || numSelected < 1 || groupOverFull)
  }

  /** A click on an enabled Burn button always gets past the empty-selection test. */
  lemma EnabledBurnSendsSomething(walletConnected: bool, groupOverFull: bool, sender: Address, contract: Address,
                                  minFee: nat, burnable: seq<BonfireAssetData>, keys: seq<nat>,
                                  bonfireInfo: Option<AccountInfo>)
    requires BurnEnabled(walletConnected, |keys|, groupOverFull)
    ensures BurnPlan(sender, contract, minFee, burnable, keys, bonfireInfo) != NothingSent
    ensures walletConnected && !groupOverFull
  {
  }

  /**
   * The "Add logs" button's `disabled` expression, negated: a wallet is
   * connected and at least one log is asked for.
   */
  predicate DonateEnabled(walletConnected: bool, numLogs: real)
    ensures DonateEnabled(walletConnected, numLogs) <==> walletConnected && numLogs >= 1.0
  {
    !(!walletConnected || numLogs < 1.0)
  }

  /** `donateLogs()`: one payment of 0.1 Algo per log, at the suggested fee. */
  function DonatePayment(sender: Address, contract: Address, numLogs: real): (t: Txn)
    ensures t.Payment? && t.from == sender && t.to == contract && t.fee == SuggestedFee
    ensures t.amount / LOG_COST as real == numLogs
  {
    Payment(sender, contract, LOG_COST as real * numLogs, SuggestedFee)
  }

  /** An enabled donation pays for at least one log. */
  lemma EnabledDonationPaysForALog(walletConnected: bool, sender: Address, contract: Address, numLogs: real)
    requires DonateEnabled(walletConnected, numLogs)
    ensures DonatePayment(sender, contract, numLogs).amount >= LOG_COST as real
  {
  }
}
