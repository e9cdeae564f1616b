/**
 * The asset table of src/components/ASATable.tsx: the rows it offers for
 * burning (`burnableAsas`, every asset but ALGO), the amount cell whose
 * `onBlur` clamps an edited amount into range, and `updateData`, which writes
 * one cell of the asset store.
 *
 * The store written is the asset store of `UseBonfire`, the one with a
 * path-setter; `updateData` is modelled for the `decimalAmount` column, the
 * only one whose cells call it.
 */
module AsaTable {
  import opened Types
  import opened Utilities
  import UseBonfire
  import MainComponent

  // ---------------------------------------------------------------------------
  // burnableAsas

  /** `[...assets].filter((a) => a.id > 0)`: no more rows than assets, and no ALGO row. */
  function BurnableAsas(assets: seq<BonfireAssetData>): (rows: seq<BonfireAssetData>)
    ensures |rows| <= |assets|
    ensures forall i :: 0 <= i < |rows| ==> rows[i].id > 0
  {
    if |assets| == 0 then []
    else
      var last := assets[|assets| - 1];
      BurnableAsas(assets[..|assets| - 1]) + (if last.id > 0 then [last] else [])
  }

  /** A record is burnable iff it is one of the assets and its id is above 0. */
  lemma {:induction false} BurnableAsasMembership(assets: seq<BonfireAssetData>, a: BonfireAssetData)
    ensures a in BurnableAsas(assets) <==> a in assets && a.id > 0
  {
    if |assets| > 0 {
      var init := assets[..|assets| - 1];
      BurnableAsasMembership(init, a);
      assert assets == init + [assets[|assets| - 1]];
    }
  }

  /** The filter keeps relative order: filtering two runs is filtering each in turn. */
  lemma {:induction false} BurnableAsasAppend(a: seq<BonfireAssetData>, b: seq<BonfireAssetData>)
    ensures BurnableAsas(a + b) == BurnableAsas(a) + BurnableAsas(b)
  {
    if |b| == 0 {
      assert a + b == a;
    } else {
      var binit := b[..|b| - 1];
      assert (a + b)[..|a + b| - 1] == a + binit;
      BurnableAsasAppend(a, binit);
    }
  }

  /** Nothing is dropped but ALGO records: the table has one row per asset with an id above 0. */
  lemma BurnableAsasCount(assets: seq<BonfireAssetData>)
    ensures (forall j :: 0 <= j < |assets| ==> assets[j].id > 0) ==> BurnableAsas(assets) == assets
  {
    if forall j :: 0 <= j < |assets| ==> assets[j].id > 0 {
      BurnableAsasKeepsAssets(assets);
    }
  }

  lemma {:induction false} BurnableAsasKeepsAssets(assets: seq<BonfireAssetData>)
    requires forall j :: 0 <= j < |assets| ==> assets[j].id > 0
    ensures BurnableAsas(assets) == assets
  {
    if |assets| > 0 {
      var init := assets[..|assets| - 1];
      var last := assets[|assets| - 1];
      forall j | 0 <= j < |init| ensures init[j].id > 0 {
        assert init[j] == assets[j];
      }
      BurnableAsasKeepsAssets(init);
      assert assets == init + [last];
    }
  }

  // ---------------------------------------------------------------------------
  // The amount cell

  /** An amount the cell accepts as it stands: above 0 and at most the balance. */
  predicate InRange(v: real, decimalAmount: real) {
    0.0 < v <= decimalAmount
  }

  /**
   * The value `onBlur` stores: the edit when in range, the balance
   * otherwise; never more than the balance.
   */
  function ClampBurnAmount(v: real, decimalAmount: real): (r: real)
    ensures InRange(v, decimalAmount) ==> r == v
    ensures !InRange(v, decimalAmount) ==> r == decimalAmount
    ensures r <= decimalAmount
  {
    if InRange(v, decimalAmount) then v else decimalAmount
  }

  /**
   * The clamp leaves an amount alone iff it is in range or is the balance,
   * its result is in range or is the balance, and clamping twice is clamping
   * once.
   */
  lemma ClampProperties(v: real, decimalAmount: real)
    ensures ClampBurnAmount(v, decimalAmount) == v <==> InRange(v, decimalAmount) || v == decimalAmount
    ensures InRange(ClampBurnAmount(v, decimalAmount), decimalAmount) || ClampBurnAmount(v, decimalAmount) == decimalAmount
    ensures ClampBurnAmount(ClampBurnAmount(v, decimalAmount), decimalAmount) == ClampBurnAmount(v, decimalAmount)
  {
  }

  /** Scaling by a power of ten keeps order. */
  lemma ScaleMonotone(x: real, y: real, decimals: nat)
    requires x <= y
    ensures MakeIntegerAmount(x, decimals) <= MakeIntegerAmount(y, decimals)
    ensures x < y ==> MakeIntegerAmount(x, decimals) < MakeIntegerAmount(y, decimals)
  {
    var n := Pow10(decimals);
    ScaleByCount(x, y, n);
    assert MakeIntegerAmount(x, decimals) == x * n as real;
    assert MakeIntegerAmount(y, decimals) == y * n as real;
  }

  /** Multiplying both sides by the same positive count keeps order, strict order included. */
  lemma {:induction false} ScaleByCount(x: real, y: real, n: nat)
    requires x <= y && n > 0
    ensures x * n as real <= y * n as real
    ensures x < y ==> x * n as real < y * n as real
  {
    if n > 1 {
      ScaleByCount(x, y, n - 1);
      assert x * n as real == x * (n - 1) as real + x;
      assert y * n as real == y * (n - 1) as real + y;
    }
  }

  /**
   * A record whose decimal amount is its whole balance, as fetched, and
   * whose amount went through the cell's clamp, makes burn() transfer more
   * than nothing and at most the balance, and close the holding out exactly
   * when the clamp left the whole balance.
   */
  lemma ClampedEditTransfersAtMostBalance(a: BonfireAssetData, v: real)
    requires MakeIntegerAmount(a.decimalAmount, a.decimals) == a.amount as real
    ensures var edited := a.(decimalAmount := ClampBurnAmount(v, a.decimalAmount));
            var sent := MakeIntegerAmount(edited.decimalAmount, a.decimals);
            sent <= a.amount as real &&
            (a.amount > 0 ==> sent > 0.0) &&
            (MainComponent.FullAmount(edited) <==> edited.decimalAmount == a.decimalAmount)
  {
    var c := ClampBurnAmount(v, a.decimalAmount);
    ScaleMonotone(c, a.decimalAmount, a.decimals);
    if a.amount > 0 {
      ScaleMonotone(0.0, a.decimalAmount, a.decimals);
      ScaleMonotone(0.0, c, a.decimals);
      assert MakeIntegerAmount(0.0, a.decimals) == 0.0;
    }
    if MakeIntegerAmount(c, a.decimals) == a.amount as real {
      if c < a.decimalAmount {
        ScaleMonotone(c, a.decimalAmount, a.decimals);
      }
    }
  }

  /**
   * `updateData(rowIndex, "decimalAmount", value)`: the store setter
   * `setAccountAssets(rowIndex, columnId, value)` on the one cell.
   */
  method UpdateData(store: UseBonfire.BonfireState, rowIndex: nat, value: real)
    requires rowIndex < |store.accountAssets|
    modifies store
    ensures |store.accountAssets| == |old(store.accountAssets)|
    ensures store.accountAssets[rowIndex] == old(store.accountAssets[rowIndex]).(decimalAmount := value)
    ensures forall j :: 0 <= j < |store.accountAssets| && j != rowIndex ==>
              store.accountAssets[j] == old(store.accountAssets[j])
    ensures store.algoBalance == old(store.algoBalance)
  {
    store.accountAssets := store.accountAssets[rowIndex := store.accountAssets[rowIndex].(decimalAmount := value)];
  }

  /**
   * One amount cell: the cell's `value` signal and the row it edits. The
   * row's record (`c.row.original`) is the store's live record, so every
   * read of it sees the last write made through `updateData`.
   */
  class AmountCell {
    var value: real
    const rowIndex: nat

    /** `createSignal(initialValue)` with the row's decimal amount. */
    constructor (store: UseBonfire.BonfireState, rowIndex: nat)
      requires rowIndex < |store.accountAssets|
      ensures this.rowIndex == rowIndex
      ensures value == store.accountAssets[rowIndex].decimalAmount
    {
      this.rowIndex := rowIndex;
      value := store.accountAssets[rowIndex].decimalAmount;
    }

    /** `onChange`: the typed number. */
    method OnChange(v: real)
      modifies this
      ensures value == v
    {
      value := v;
    }

    /**
     * `onBlur`: an in-range value is written to the row as it is; any other
     * is replaced by the row's current decimal amount, in the row and in the
     * cell. The bound is read from the row at the time of the blur, so an
     * amount once lowered bounds every later edit: the row never grows.
     */
    method OnBlur(store: UseBonfire.BonfireState)
      requires rowIndex < |store.accountAssets|
      modifies this, store
      ensures |store.accountAssets| == |old(store.accountAssets)|
      ensures var bound := old(store.accountAssets[rowIndex]).decimalAmount;
              value == ClampBurnAmount(old(value), bound) &&
              store.accountAssets[rowIndex] == old(store.accountAssets[rowIndex]).(decimalAmount := ClampBurnAmount(old(value), bound))
      ensures store.accountAssets[rowIndex].decimalAmount <= old(store.accountAssets[rowIndex]).decimalAmount
      ensures old(store.accountAssets[rowIndex]).decimalAmount > 0.0 ==> store.accountAssets[rowIndex].decimalAmount > 0.0
      ensures forall j :: 0 <= j < |store.accountAssets| && j != rowIndex ==>
                store.accountAssets[j] == old(store.accountAssets[j])
      ensures store.algoBalance == old(store.algoBalance)
    {
      var bound := store.accountAssets[rowIndex].decimalAmount;
      if 0.0 < value && value <= bound {
        UpdateData(store, rowIndex, value);
      } else {
        UpdateData(store, rowIndex, bound);
        value := store.accountAssets[rowIndex].decimalAmount;
      }
    }
  }
}
