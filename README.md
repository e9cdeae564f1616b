# Bonfire burn-group assembler in Dafny

Bonfire is a browser front end for burning Algorand Standard Assets (ASAs).
The user selects assets in a table and clicks Burn. The page then builds one
atomic transaction group for the ARC-54 burn contract and signs it. This
project models how that group is put together, along with the helpers around it:

- **The group (`MainComponent`, src/components/Main.tsx).** `burn()` turns the
  selection into a group in three steps:
  - It decides which assets the contract must opt into first.
  - It decides whether each transfer closes the sender's holding out to the
    contract.
  - It works out how many 0.1-Algo top-up payments the contract needs, taking
    the spare capacity from `calcExtraLogs` into account.

  The group is then laid out as the payment, then the opt-in calls, then the
  transfers. `Burn` follows the source's loops and is proved equal to the
  reference definition `BurnPlan`. Lemmas state the rules of `BurnPlan`.
  The module also covers the Burn and "Add logs" button conditions and the
  donation payment.
- **The table (`AsaTable`, src/components/ASATable.tsx).**
  - The id > 0 filter that gives the burnable rows.
  - The amount cell's `onBlur` clamp.
  - `updateData`, which writes one cell of the asset store.
- **The helpers (`Utilities`, src/lib/utilities.ts).**
  - `ellipseString` and `numberWithCommas`. The regular expression is modelled
    match by match.
  - Conversion between base units and decimal amounts, and `calcExtraLogs`.
  - The branches of `ipfsFromAsset` that decide without fetching.
  - The parse of ARC-19 `template-ipfs://{ipfscid:...}` URLs.
- **The inventories (`UseBonfire`, `UseAssets`, src/lib/useBonfire.ts and
  src/lib/useAssets.ts).** `fetchAccountInfo` reshapes the account's holdings,
  fills each one in from the asset lookup, and replaces the store. On any
  failure it resets the store to a zero ALGO record.
- **The explorer links (`Networks`, src/lib/networks.ts).** The four link
  builders and `networkNames`.

`Types` holds the records of src/lib/types.ts. `Wrappers` holds `Option` and
`Result`. `JsText` models the JavaScript string built-ins the source relies on:
`slice` with negative indices, `split`/`join`, `indexOf`, `startsWith`,
`endsWith`, `includes`, `parseInt` and number-to-string.

Decimal amounts are exact rationals (`real`) and base units are `nat`. The SDK
transaction constructors become the `Txn` datatype. The app client's composer
becomes the `GroupComposer` class, whose transaction list grows one call at a
time.

Some documented behaviour differs from the code. In each case the model
follows the code:

- `makeIntegerAmount` multiplies by 10^decimals and does not round.
- `calcExtraLogs` is not clamped at 0. A contract below its minimum balance
  gives a negative count, which raises the number of top-up payments.
- A selected asset with a zero balance still gets a transfer. It only skips
  the opt-in.
- A failed account query, or a failed lookup for any single asset, replaces
  the whole inventory with the zero ALGO record. The previous inventory is not
  kept, and the failure is not confined to that one asset.
- The node leaves the `assets` list out of the information of an account that
  holds no asset. Both inventory hooks then throw inside `map` and reset to
  the zero ALGO record, so `useAssets` shows an ALGO balance of 0 for an
  account that holds only Algo. In `burn()`, `find` on the missing list of
  the burn contract throws for the first selected asset with a positive
  balance, and the burn fails.

## Model

| member | source | states |
|---|---|---|
| Utilities.EllipseString | src/lib/utilities.ts:9-11 | For 0 < w <= \|s\|: the first w characters, "...", the last w characters, length 2w+3. A width beyond the string repeats the whole string. Width 0 gives "..." and the whole string, since `slice(-0)` is `slice(0)` |
| Utilities.NumberWithCommas | src/lib/utilities.ts:14-18 | The result is the comma-grouped text before the first "." followed by the rest of the input, unchanged |
| Utilities.NumberWithCommasOnlyAddsCommas | src/lib/utilities.ts:14-18 | Deleting every comma from the result gives the input with its commas deleted, so a comma-free input comes back exactly |
| Utilities.NumberWithCommasGroupsThousands | src/lib/utilities.ts:16 | For an all-digit integer part: groups after the first have exactly 3 digits, the first has 1-3, and the fractional part is kept |
| Utilities.InsertCommasGroupsDigits | src/lib/utilities.ts:16 | On a run of digits the regular-expression replace equals the usual thousands grouping from the right |
| Utilities.GroupDigitsGrouped | src/lib/utilities.ts:16 | The grouping of a non-empty digit run is well formed: a comma exactly every fourth place from the end, digits elsewhere |
| Utilities.CommaBeforeInDigits | src/lib/utilities.ts:16 | Inside a digit run the pattern matches at position p iff p is interior and a multiple of three digits follows |
| Utilities.RemoveInsertedCommas | src/lib/utilities.ts:16 | Deleting commas after the replace gives back the original prefix with its commas deleted |
| Utilities.NumberToDecimal | src/lib/utilities.ts:44-48 | The decimal amount times 10^decimals is the base-unit amount; 0 decimals leave it unchanged |
| Utilities.MakeIntegerAmount | src/lib/utilities.ts:39-42 | The base-unit amount divided by 10^decimals is the decimal amount, with no rounding |
| Utilities.AmountRoundTrip | src/lib/utilities.ts:39-48 | makeIntegerAmount(numberToDecimal(n, d), d) == n, and the converse |
| Utilities.CalcExtraLogs | src/lib/utilities.ts:50-53 | The floor of (amount - min-balance) / 100000. It is negative iff the account is below its minimum balance |
| Utilities.GatewayIsHttps | src/lib/utilities.ts:55-65 | A gateway address starts with the endpoint and never with `ipfs://` |
| Utilities.IpfsFromAsset | src/lib/utilities.ts:57-117 | No URL gives "". A URL containing `template-ipfs` of an asset with a reserve, and only that, takes the ARC-19 branch (whether or not it is a well-formed template). Otherwise a `#arc3` URL, and only that, needs the ARC-3 metadata. Every other URL gives an address directly |
| Utilities.ImageFromArc3Metadata | src/lib/utilities.ts:76-98 | An `ipfs://X` image becomes endpoint + "/" + X + optimizer, so the image never starts with `ipfs://`. A non-`ipfs://` image is kept, and a missing image gives "" |
| Utilities.ImageFromArc19Metadata | src/lib/utilities.ts:61-75 | An `ipfs://X` metadata image becomes endpoint + "/" + X + optimizer. A non-`ipfs://` metadata image is kept, and without one the address is the gateway address of the CID. The result never starts with `ipfs://` and is never "" |
| Utilities.Arc19Image | src/lib/utilities.ts:60-75 | The ARC-19 branch gives "" exactly when the template parse fails (the thrown error is caught at utilities.ts:113-116); otherwise it gives the metadata image address |
| Utilities.Arc19BranchWithoutTemplateGivesEmpty | src/lib/utilities.ts:61-62 | A URL containing `template-ipfs` but lacking the `template-ipfs://{ipfscid:` prefix, of an asset with a reserve, still takes the ARC-19 branch, and its image is "" |
| Utilities.NoIpfsSchemeSurvives | src/lib/utilities.ts:57-117 | No image address that ipfsFromAsset produces starts with `ipfs://`. This holds for direct URLs, fetched ARC-3 metadata and fetched ARC-19 metadata |
| Utilities.IpfsSchemeRewritten | src/lib/utilities.ts:105-109 | `ipfs://X` becomes endpoint + "/" + X + optimizer, with or without a reserve, unless it ends in `#arc3` or is an ARC-19 template of an asset with a reserve |
| Utilities.Arc3SuffixStripped | src/lib/utilities.ts:76-89 | A `#arc3` URL loses its 5-character suffix, with or without a reserve, unless it is an ARC-19 template of an asset with a reserve. The metadata address is then the gateway path for `ipfs://`, or the stripped URL otherwise |
| Utilities.HttpsIpfsRewritten | src/lib/utilities.ts:100-104 | An https URL mentioning ipfs, not ARC-3 and not an ARC-19 template of an asset with a reserve, maps to the gateway with the text after the first "/ipfs/" (up to the next one). Without "/ipfs/" it maps to the text "undefined" |
| Utilities.OtherUrlUnchanged | src/lib/utilities.ts:110-112 | Any URL that no earlier branch takes (not an ARC-19 template of an asset with a reserve, not ARC-3, not an https URL mentioning ipfs, not `ipfs://`) is returned as it is, reserve or none |
| Utilities.CodecCode | src/lib/utilities.ts:126-133 | `raw` maps to 0x55 and `dag-pb` to 0x70, both directions. Every other codec, or a missing one, is an error |
| Utilities.ParseArc19Url | src/lib/utilities.ts:119-145 | Accepted iff the scheme is `template-ipfs`, the remainder starts with `{ipfscid:` and the codec field (the third ":"-separated field) is `raw` or `dag-pb`. The code is that codec's code, and the version flag is set iff `parseInt` of the second field gives 1. Every failure, an unknown codec included, is the error "invalid url" + url |
| Utilities.Arc19AcceptedHasPrefix | src/lib/utilities.ts:121-122 | An accepted URL starts with `template-ipfs://{ipfscid:` |
| Utilities.Arc19TemplateAccepted | src/lib/utilities.ts:121-136 | A well-formed template with a known codec is accepted with that codec's code. The version is 1 iff `parseInt` reads 1 |
| Utilities.Arc19RejectsOtherUrls | src/lib/utilities.ts:139-144 | A URL without that prefix is rejected with "invalid url" + url |
| Networks.NetworkNames | src/lib/networks.ts:56-63 | Exactly four distinct names: mainnet, testnet, betanet and localnet |
| Networks.GetAddrUrl | src/lib/networks.ts:65-77 | Dappflow on localnet gives `/setnetwork?name=sandbox&redirect=explorer/account/` + addr. Dappflow elsewhere gives `/setnetwork?name=algonode_<network>&redirect=explorer/account/` + addr. Any other explorer gives base + `/account/` + addr |
| Networks.GetAsaUrl | src/lib/networks.ts:78-90 | The same three templates with the `asset/` page and the decimal asset id; any other explorer gives base + `/asset/` + id |
| Networks.GetTxUrl | src/lib/networks.ts:92-104 | The same three templates; Dappflow uses the `explorer/transaction/` page, any other explorer base + `/tx/` + txId |
| Networks.GetAppUrl | src/lib/networks.ts:106-118 | The same three templates with the `application/` page and the decimal application id; any other explorer gives base + `/application/` + id |
| Networks.AddrLinksDistinct | src/lib/networks.ts:65-77 | On a fixed network, equal account links mean equal addresses |
| Networks.AsaLinksDistinct | src/lib/networks.ts:78-90 | On a fixed network, equal asset links mean equal asset ids |
| Networks.TxLinksDistinct | src/lib/networks.ts:92-104 | On a fixed network, equal transaction links mean equal transaction ids |
| Networks.AppLinksDistinct | src/lib/networks.ts:106-118 | On a fixed network, equal application links mean equal application ids |
| MainComponent.GroupComposer.constructor | src/components/Main.tsx:78 | A new composer holds no transactions |
| MainComponent.GroupComposer.AddTransaction | src/components/Main.tsx:127 | Appends the transaction at the end of the group |
| MainComponent.GroupComposer.Arc54OptIntoAsa | src/components/Main.tsx:131-136 | Appends one opt-in call for the asset with the given fee |
| MainComponent.SelectedAssets | src/components/Main.tsx:67-70 | Defined iff every key names a row. Then there is one record per key, in key order, each the named row |
| MainComponent.FindAsset | src/components/Main.tsx:84 | `find` finds an entry iff one has that asset id, and returns the first such entry |
| MainComponent.CloseRemainderTo | src/components/Main.tsx:91-98 | The close-to address is the contract iff the whole balance is burnt and the sender did not create the asset. Otherwise it is undefined |
| MainComponent.MbrPaymentCount | src/components/Main.tsx:114-116 | The count plus the spare capacity covers every opt-in, and a nonzero count covers them exactly, as `max(numOptInCalls - extraLogs, 0)` gives |
| MainComponent.CollectAssetsToBurn | src/components/Main.tsx:67-70 | The list is the row each selection key names, in ascending key order, with `undefined` for a missing row |
| MainComponent.FindAssetDecidesHolding | src/components/Main.tsx:84 | `find` on the contract's `assets` returns an entry iff the contract holds the asset |
| MainComponent.VisitAssets | src/components/Main.tsx:80-112 | Fails iff some entry is `undefined`, or has a positive balance while the contract information has no `assets` list (`find` throws). Otherwise the opt-in queue and the transfer list are those of the reference plan, `numOptInCalls` is the queue length, and `slots == numOptInCalls + assetsToBurn.length` |
| MainComponent.ComposeGroup | src/components/Main.tsx:119-141 | The group is the payment if one is owed, then one opt-in call per queued id in order at 2 * minFee, then the transfers in order |
| MainComponent.BurnPlan | src/components/Main.tsx:56-153 | Nothing is sent iff the selection is empty. A composed group counts at least one slot per selected key |
| MainComponent.Burn | src/components/Main.tsx:56-153 | The outcome is the reference plan: nothing is sent iff the selection is empty; failure on a key without a row, on a positive-balance asset when the contract has no `assets` list, or with no contract information; otherwise the composed group and its slot count |
| MainComponent.OptInQueueMembership | src/components/Main.tsx:82-89 | An id is queued iff some selected asset with that id has amount > 0 and no entry of the contract's `assets` has that `asset-id` |
| MainComponent.OptInQueueAppend | src/components/Main.tsx:80-89 | The queue keeps visiting order: queueing a + b is queueing a, then b |
| MainComponent.OptInQueue | src/components/Main.tsx:82-89 | There are never more opt-in calls than selected assets |
| MainComponent.OneTransferPerAsset | src/components/Main.tsx:101-111 | Every selected asset yields one transfer, zero balances included. It goes from the sender to the contract, for that asset id, for makeIntegerAmount of its decimal amount, at the flat fee |
| MainComponent.CloseOutRule | src/components/Main.tsx:91-98 | The close-to address is the contract iff the decimal amount is the whole balance and the sender is not the creator. Otherwise it is undefined |
| MainComponent.TopUpCoversOptIns | src/components/Main.tsx:114-125 | After the top-up, the contract's balance covers its minimum balance plus 100000 per new opt-in, and one payment fewer would not |
| MainComponent.GroupLayout | src/components/Main.tsx:119-141 | The payment (amount 100000 * n) comes first iff n > 0, and no other position holds a payment. Opt-in calls follow in queue order, then the transfers in selection order |
| MainComponent.GroupFees | src/components/Main.tsx:61-141 | Opt-in calls pay 2 * minFee. The payment and the transfers pay the flat fee minFee |
| MainComponent.BurnEnabled | src/components/Main.tsx:198-202 | The Burn button is enabled iff a wallet is connected, at least one row is selected and the group is not over-full |
| MainComponent.BurnOutcomes | src/components/Main.tsx:60-153 | Nothing is sent iff the selection is empty. Failure iff it is non-empty and the contract information is missing, or some key names no row or names a positive-balance asset while the contract has no `assets` list. A composed group is exactly the planned group: the optional top-up payment, the opt-in calls for the queued assets, then one transfer per selected asset; \|group\| = slots plus 1 if there is a payment |
| MainComponent.EnabledBurnSendsSomething | src/components/Main.tsx:195-202 | An enabled Burn button means a wallet is connected, the group is not over-full and the selection is non-empty, so burn() gets past the empty-selection test |
| MainComponent.DonatePayment | src/components/Main.tsx:155-166 | One payment from the sender to the contract, of 100000 per log, at the suggested fee |
| MainComponent.DonateEnabled | src/components/Main.tsx:242 | The "Add logs" button is enabled iff a wallet is connected and at least one log is asked for |
| MainComponent.EnabledDonationPaysForALog | src/components/Main.tsx:239-244 | An enabled "Add logs" button means at least one log, so at least 100000 is paid |
| AsaTable.BurnableAsas | src/components/ASATable.tsx:198 | No more rows than assets, and every row has an id above 0 |
| AsaTable.BurnableAsasMembership | src/components/ASATable.tsx:198 | A record is a burnable row iff it is one of the assets and its id is above 0 |
| AsaTable.BurnableAsasAppend | src/components/ASATable.tsx:198 | The filter keeps relative order |
| AsaTable.BurnableAsasCount | src/components/ASATable.tsx:198 | With no ALGO record among the assets, the rows are the assets themselves, in order |
| AsaTable.ClampBurnAmount | src/components/ASATable.tsx:149-156 | An in-range value (0 < v <= balance) is kept, any other becomes the balance, and the result never exceeds the balance |
| AsaTable.ClampProperties | src/components/ASATable.tsx:149-156 | The clamp keeps a value iff it is in (0, balance] or equals the balance. Its result always is one of those, and clamping twice equals clamping once |
| AsaTable.ClampedEditTransfersAtMostBalance | src/components/ASATable.tsx:149-156 | For a freshly loaded record, the clamped amount burns more than nothing (when the balance is positive) and at most the balance. It closes out iff the clamp left the whole balance |
| AsaTable.UpdateData | src/components/ASATable.tsx:222-228 | Only the `decimalAmount` field of row `rowIndex` changes. Every other row, the length and the Algo balance stay the same |
| AsaTable.AmountCell.constructor | src/components/ASATable.tsx:141-145 | The cell starts at the decimal amount its row holds in the store |
| AsaTable.AmountCell.OnChange | src/components/ASATable.tsx:158-165 | The cell takes the typed number |
| AsaTable.AmountCell.OnBlur | src/components/ASATable.tsx:149-156 | The bound is the row's decimal amount as the store holds it at the blur. An in-range value is written to the row unchanged; any other is replaced by that bound in both the row and the cell. The row never grows and stays positive if it was. Other rows are untouched |
| UseBonfire.MakeAlgoAssetDataObj | src/lib/useBonfire.ts:15-26 | The ALGO record is asset 0, not frozen, named and unit-named ALGO, with 6 decimals, total 10^16 and amount amt, and its decimal amount times 10^6 is amt |
| UseBonfire.AlgoRecordIsWholeBalance | src/lib/useBonfire.ts:15-26 | The ALGO record has id 0, amount amt, 6 decimals, no freeze and name/unit "ALGO", and its decimal amount is amt / 10^6 |
| UseBonfire.BonfireState.constructor | src/lib/useBonfire.ts:29-30 | The balance starts at 0 and the store starts empty |
| UseBonfire.BonfireState.FetchAccountInfo | src/lib/useBonfire.ts:36-82 | A falsy address changes nothing. A failed query resets the store to [ALGO(0)]. Otherwise the balance becomes the account's amount, and the store becomes the filled inventory, or [ALGO(0)] if the `assets` list is missing or a lookup fails |
| UseBonfire.BonfireState.OnAddressChange | src/lib/useBonfire.ts:117-130 | The empty address resets the store to [ALGO(0)]. Any other address fetches |
| UseBonfire.FillRecords | src/lib/useBonfire.ts:49-74 | Walks the reshaped records in order, filling each record with an id above 0 from its lookup in place. The result is the reference fill: none iff some lookup fails |
| UseBonfire.ReshapeKeepsHoldings | src/lib/useBonfire.ts:49-59 | Reshaping keeps length and order, and each record keeps id, amount and frozen. Decimals, total and decimal amount start at 0 |
| UseBonfire.FillAllOutcome | src/lib/useBonfire.ts:60-74 | The fill fails iff some lookup for an id > 0 fails. Otherwise each id > 0 record takes the looked-up decimals and amount / 10^decimals, and id 0 records are untouched |
| UseBonfire.FetchedRecordsHoldWholeBalance | src/lib/useBonfire.ts:43-79 | The inventory is [ALGO(0)] iff the `assets` list is missing or a lookup failed. Otherwise it has one record per holding with its id. Each asset record's decimal amount converts back to its whole balance |
| UseAssets.MakeAlgoAssetDataObj | src/lib/useAssets.ts:5-15 | The ALGO record is asset 0, not frozen, named and unit-named ALGO, with 6 decimals, total 10^16 and amount amt |
| UseAssets.AssetsState.constructor | src/lib/useAssets.ts:18 | The signal starts as [ALGO(0)] |
| UseAssets.AssetsState.FetchAccountInfo | src/lib/useAssets.ts:24-69 | A falsy address changes nothing. A failed query or lookup, or a missing `assets` list, gives [ALGO(0)]. Otherwise the signal is the filled inventory |
| UseAssets.AssetsState.OnAddressChange | src/lib/useAssets.ts:71-84 | The empty address resets to [ALGO(0)]. Any other address fetches |
| UseAssets.FillRecords | src/lib/useAssets.ts:33-61 | Walks the ALGO record and the reshaped holdings in order, filling each record with an id above 0 from its lookup in place. The result is the reference fill: none iff some lookup fails |
| UseAssets.FetchedInventoryShape | src/lib/useAssets.ts:33-66 | A missing `assets` list gives [ALGO(0)]. Otherwise, without a failing lookup: ALGO(info.amount) first, then one record per holding in order, keeping id, amount and frozen. Records with id > 0 take name, unit, decimals and total from the lookup |
| UseAssets.AlgoRecordFirst | src/lib/useAssets.ts:5-18 | Every inventory starts with an id 0, 6-decimal "ALGO" record holding the account's balance or 0 |

## Left out

- Wallet connection and signing, `group.execute()`, `atc.execute()` and `getTransactionWithSigner`. These are foreign calls, so a composed group or payment is the end point.
- The transaction id shown after a burn, and the `waitingBurn`/`waitingDonate`/`confirmedTxn` signals. These are UI state.
- Network reads. The minimum fee, the contract's account information, the account query and the per-asset lookup are parameters. So are the fetched ARC-3/ARC-19 metadata `image` and the computed CID.
- CID construction, the sha256 digest and `decodeAddress`. These are crypto libraries not shown here.
- Utilities.ParseArc19Url: yields the CID version flag and the codec code, not the CID.
- Utilities.EllipseString: the default arguments (`string = ""`, `width = 4`) are not modelled; the model always takes both arguments.
- Reactive plumbing: `createComputed`, `createMemo`, `createResource`, `on(...)`, the refetch after a confirmed transaction, and the cell's `createEffect` re-sync. The effects are modelled as explicit method calls.
- The `group()`, `groupOverFull()` and `burnableAsas()` values that Main.tsx reads from `useBonfire` are not defined in any file shown. The burnable rows are a parameter of `Burn`, and the over-full flag is a boolean parameter of `BurnEnabled`.
- Floating point. Amounts are exact rationals. `formatNumWithDecimals`, `displayAssetAmount` and `makeBigIntAmount` depend on floating-point output and are not modelled.
- MainComponent.Burn: transfer amounts are rationals. The SDK's rejection of non-integer or negative amounts is not modelled.
- MainComponent.DonatePayment: the log count is not checked to be a whole number, because that check lives in the SDK.
- `parseInt` reads an optional sign and leading decimal digits only. Leading whitespace and radix prefixes are not modelled.
- `numberWithCommas` takes the string form of its argument. `Number.prototype.toString` is not modelled.
- The selection record is modelled by its keys only. Deselected rows are assumed to be removed from the record. `Object.entries` lists integer keys in ascending order, and the `EntryKeys` type carries that order.
- `Promise.all` runs the lookups concurrently. Each result is written to its own slot, so the model uses a sequential loop.
- AsaTable.AmountCell.OnBlur: the table's row index counts the burnable rows, and the model reads and writes the store row with the same index. The two coincide when every store row has an id above 0. A successful fetch stores only the account's asset holdings, which do; after a failed fetch the store holds the single ALGO record and the table shows no row.
- AsaTable.UpdateData: modelled for the `decimalAmount` column only, the only column whose cells call it. It writes the asset store of useBonfire.ts, the store that has a path setter. ASATable.tsx destructures `setAccountAssets` from useAssets.ts, which does not return one.
- Sorting, the select-all checkbox, the JSX rendering, src/App.tsx, the header, about and image components, the tailwind and vite configuration, and src/lib/versioning.ts. These are display and configuration code with no behaviour to model.
