/**
 * The block-explorer links of src/lib/networks.ts. The explorer base URL of
 * each network comes from the build environment, so it is a parameter:
 * `explorers(n)` is the network's `blockExplorer`, `None` when it is unset
 * (a template literal then prints "undefined").
 */
module Networks {
  import opened Wrappers
  import opened Types
  import opened JsText

  /** The key of a network in the configuration table. */
  function NetworkId(n: NetworkName): string {
    match n
    case MainNet => "mainnet"
    case TestNet => "testnet"
    case BetaNet => "betanet"
    case LocalNet => "localnet"
  }

  /** `networkNames`: the keys of the configuration table, in declaration order. */
  function NetworkNames(): (names: seq<string>)
    ensures |names| == 4
    ensures forall n: NetworkName :: NetworkId(n) in names
    ensures forall i, j :: 0 <= i < j < |names| ==> names[i] != names[j]
  {
    [NetworkId(MainNet), NetworkId(TestNet), NetworkId(BetaNet), NetworkId(LocalNet)]
  }

  const DAPPFLOW: string := "https://app.dappflow.org"

  /** `${url}` for the configured explorer. */
  function BaseText(explorer: Option<string>): string {
    match explorer
    case Some(url) => url
    case None => "undefined"
  }

  /** `r` is the explorer base, some path, and then `key`. */
  predicate LinkShaped(r: string, base: string, key: string) {
    |base| + |key| <= |r| && r[..|base|] == base && r[|r| - |key|..] == key
  }

  lemma TemplateIsLinkShaped(base: string, middle: string, key: string)
    ensures LinkShaped(base + middle + key, base, key)
  {
    var r := base + middle + key;
    assert r[..|base|] == base;
    assert r[|r| - |key|..] == key;
  }

  /** The path that makes Dappflow select the sandbox, then redirect to its explorer. */
  const SANDBOX_REDIRECT: string := "/setnetwork?name=sandbox&redirect=explorer/"

  /** The path that makes Dappflow select the algonode endpoint of `network`, then redirect. */
  function AlgonodeRedirect(network: NetworkName): string {
    "/setnetwork?name=algonode_" + NetworkId(network) + "&redirect=explorer/"
  }

  /**
   * The shape all four builders share: on Dappflow the network-selecting
   * redirect followed by `dappflowPage`, on any other explorer `page`, and
   * then the key.
   */
  function ExplorerLink(explorers: NetworkName -> Option<string>, network: NetworkName,
                        dappflowPage: string, page: string, key: string): (r: string)
    ensures LinkShaped(r, BaseText(explorers(network)), key)
  {
    var url := BaseText(explorers(network));
    if explorers(network) == Some(DAPPFLOW) then
      if network == LocalNet then
        TemplateIsLinkShaped(url, SANDBOX_REDIRECT + dappflowPage, key);
        url + (SANDBOX_REDIRECT + dappflowPage) + key
      else
        TemplateIsLinkShaped(url, AlgonodeRedirect(network) + dappflowPage, key);
        url + (AlgonodeRedirect(network) + dappflowPage) + key
    else
      TemplateIsLinkShaped(url, page, key);
      url + page + key
  }

  /**
   * `getAddrUrl(addr, activeNetwork)`: Dappflow on localnet selects the
   * sandbox, Dappflow elsewhere selects `algonode_<network>`, any other
   * explorer takes `/account/<addr>`.
   */
  function GetAddrUrl(explorers: NetworkName -> Option<string>, addr: Address, network: NetworkName): (r: string)
    ensures LinkShaped(r, BaseText(explorers(network)), addr)
    ensures explorers(network) == Some(DAPPFLOW) && network == LocalNet ==>
              r == DAPPFLOW + (SANDBOX_REDIRECT + "account/") + addr
    ensures explorers(network) == Some(DAPPFLOW) && network != LocalNet ==>
              r == DAPPFLOW + (AlgonodeRedirect(network) + "account/") + addr
    ensures explorers(network) != Some(DAPPFLOW) ==> r == BaseText(explorers(network)) + "/account/" + addr
  {
    ExplorerLink(explorers, network, "account/", "/account/", addr)
  }

  /** `getAsaUrl(index, activeNetwork)`: the same split with the `asset` page. */
  function GetAsaUrl(explorers: NetworkName -> Option<string>, index: AssetId, network: NetworkName): (r: string)
    ensures LinkShaped(r, BaseText(explorers(network)), NatToString(index))
    ensures explorers(network) == Some(DAPPFLOW) && network == LocalNet ==>
              r == DAPPFLOW + (SANDBOX_REDIRECT + "asset/") + NatToString(index)
    ensures explorers(network) == Some(DAPPFLOW) && network != LocalNet ==>
              r == DAPPFLOW + (AlgonodeRedirect(network) + "asset/") + NatToString(index)
    ensures explorers(network) != Some(DAPPFLOW) ==> r == BaseText(explorers(network)) + "/asset/" + NatToString(index)
  {
    ExplorerLink(explorers, network, "asset/", "/asset/", NatToString(index))
  }

  /** `getTxUrl(txId, activeNetwork)`: Dappflow says `transaction`, other explorers `tx`. */
  function GetTxUrl(explorers: NetworkName -> Option<string>, txId: string, network: NetworkName): (r: string)
    ensures LinkShaped(r, BaseText(explorers(network)), txId)
    ensures explorers(network) == Some(DAPPFLOW) && network == LocalNet ==>
              r == DAPPFLOW + (SANDBOX_REDIRECT + "transaction/") + txId
    ensures explorers(network) == Some(DAPPFLOW) && network != LocalNet ==>
              r == DAPPFLOW + (AlgonodeRedirect(network) + "transaction/") + txId
    ensures explorers(network) != Some(DAPPFLOW) ==> r == BaseText(explorers(network)) + "/tx/" + txId
  {
    ExplorerLink(explorers, network, "transaction/", "/tx/", txId)
  }

  /** `getAppUrl(appId, activeNetwork)`: the same split with the `application` page. */
  function GetAppUrl(explorers: NetworkName -> Option<string>, appId: nat, network: NetworkName): (r: string)
    ensures LinkShaped(r, BaseText(explorers(network)), NatToString(appId))
    ensures explorers(network) == Some(DAPPFLOW) && network == LocalNet ==>
              r == DAPPFLOW + (SANDBOX_REDIRECT + "application/") + NatToString(appId)
    ensures explorers(network) == Some(DAPPFLOW) && network != LocalNet ==>
              r == DAPPFLOW + (AlgonodeRedirect(network) + "application/") + NatToString(appId)
    ensures explorers(network) != Some(DAPPFLOW) ==>
              r == BaseText(explorers(network)) + "/application/" + NatToString(appId)
  {
    ExplorerLink(explorers, network, "application/", "/application/", NatToString(appId))
  }

  /** The text before the key depends only on the explorer, the network and the page. */
  lemma SamePrefixSameKey(prefix: string, k1: string, k2: string)
    requires prefix + k1 == prefix + k2
    ensures k1 == k2
  {
    assert k1 == (prefix + k1)[|prefix|..];
    assert k2 == (prefix + k2)[|prefix|..];
  }

  /** On a fixed network and page, the link determines the key. */
  lemma ExplorerLinkInjective(explorers: NetworkName -> Option<string>, network: NetworkName,
                              dappflowPage: string, page: string, k1: string, k2: string)
    requires ExplorerLink(explorers, network, dappflowPage, page, k1) == ExplorerLink(explorers, network, dappflowPage, page, k2)
    ensures k1 == k2
  {
    var url := BaseText(explorers(network));
    if explorers(network) == Some(DAPPFLOW) {
      if network == LocalNet {
        SamePrefixSameKey(url + (SANDBOX_REDIRECT + dappflowPage), k1, k2);
      } else {
        SamePrefixSameKey(url + (AlgonodeRedirect(network) + dappflowPage), k1, k2);
      }
    } else {
      SamePrefixSameKey(url + page, k1, k2);
    }
  }

  /** Different accounts get different links on a fixed network. */
  lemma AddrLinksDistinct(explorers: NetworkName -> Option<string>, network: NetworkName, a1: Address, a2: Address)
    requires GetAddrUrl(explorers, a1, network) == GetAddrUrl(explorers, a2, network)
    ensures a1 == a2
  {
    ExplorerLinkInjective(explorers, network, "account/", "/account/", a1, a2);
  }

  /** Different assets get different links on a fixed network. */
  lemma AsaLinksDistinct(explorers: NetworkName -> Option<string>, network: NetworkName, i1: AssetId, i2: AssetId)
    requires GetAsaUrl(explorers, i1, network) == GetAsaUrl(explorers, i2, network)
    ensures i1 == i2
  {
    ExplorerLinkInjective(explorers, network, "asset/", "/asset/", NatToString(i1), NatToString(i2));
    NatToStringInjective(i1, i2);
  }

  /** Different transactions get different links on a fixed network. */
  lemma TxLinksDistinct(explorers: NetworkName -> Option<string>, network: NetworkName, t1: string, t2: string)
    requires GetTxUrl(explorers, t1, network) == GetTxUrl(explorers, t2, network)
    ensures t1 == t2
  {
    ExplorerLinkInjective(explorers, network, "transaction/", "/tx/", t1, t2);
  }

  /** Different applications get different links on a fixed network. */
  lemma AppLinksDistinct(explorers: NetworkName -> Option<string>, network: NetworkName, p1: nat, p2: nat)
    requires GetAppUrl(explorers, p1, network) == GetAppUrl(explorers, p2, network)
    ensures p1 == p2
  {
    ExplorerLinkInjective(explorers, network, "application/", "/application/", NatToString(p1), NatToString(p2));
    NatToStringInjective(p1, p2);
  }
}
