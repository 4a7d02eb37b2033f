/**
 * `ActivationRequestBuilder`: the activation request of every protocol
 * family, the synchronous token request, and the in-place refresh of the
 * server lists inside an existing request.
 */
module RequestBuilder {
  import opened Wrappers
  import opened Text
  import opened JsonData
  import opened CoinsConfig
  import opened ServerSelection
  import opened KdfMethod

  /** `ActivationRequest`: an RPC method, its params, a timeout in seconds,
      and whether the method starts a task that has to be polled. */
  datatype ActivationRequest = ActivationRequest(rpcMethod: string, params: Json, timeout: int, isTask: bool)

  /** The `ValueError`s the builders raise. */
  datatype BuildError =
    | UnsupportedProtocol(protocolType: Json, ticker: string)
    | NotAToken(ticker: string)

  function BuildErrorMessage(e: BuildError): string
  {
    match e
    case UnsupportedProtocol(t, ticker) => "Unsupported protocol type: " + PyStr(t) + " for ticker: " + ticker
    case NotAToken(ticker) => "Ticker " + ticker + " is not recognized as a token"
  }

  /** KDF's task methods are named `task::<method>`. */
  const TaskPrefix := "task::"
  const EthInit := TaskPrefix + "enable_eth::init"
  const TendermintInit := TaskPrefix + "enable_tendermint::init"
  const UtxoInit := TaskPrefix + "enable_utxo::init"
  const SiaInit := TaskPrefix + "enable_sia::init"

  /** The init method each family is activated with. */
  function InitMethod(family: Json): string
  {
    if family == JStr("ETH") then EthInit
    else if family == JStr("TENDERMINT") then TendermintInit
    else if family == JStr("SIA") then SiaInit
    else UtxoInit
  }

  /** `d` has the key `k`, holding `v`. */
  predicate Sets(d: Object, k: string, v: Json)
  {
    k in d && d[k] == v
  }

  // ---------------------------------------------------------------- nodes

  const EthNodeExtras: set<string> := {"ws_url", "komodo_proxy"}
  const TendermintNodeExtras: set<string> := {"api_url", "grpc_url", "ws_url", "komodo_proxy"}

  /** One entry of `_normalize_eth_nodes`: a dict with a url keeps its url and
      whichever of `ws_url`/`komodo_proxy` it has; a string becomes a url. */
  function EthNode(n: Json): (r: Option<Json>)
    ensures r.Some? <==> Usable(n) || n.JStr?
    ensures r.Some? ==> r.value.JObj? && "url" in r.value.fields && r.value.fields.Keys <= {"url"} + EthNodeExtras
    ensures Usable(n) ==> (r.value.fields["url"] == n.fields["url"] &&
      forall k :: k in EthNodeExtras ==> (k in r.value.fields <==> k in n.fields))
    ensures n.JStr? ==> r.value.fields["url"] == n
  {
    if Usable(n) then Some(JObj(PickPresent(n.fields, EthNodeExtras)["url" := n.fields["url"]]))
    else if n.JStr? then Some(JObj(map["url" := n]))
    else None
  }

  /** One `rpc_urls` entry of `_normalize_tendermint_nodes`: the url and the
      truthy extra endpoints of a dict with a url, or a bare string. */
  function TendermintRpcNode(e: Json): (r: Option<Json>)
    ensures r.Some? <==> Usable(e) || e.JStr?
    ensures r.Some? ==> (r.value.JObj? && "url" in r.value.fields &&
      r.value.fields.Keys <= {"url"} + TendermintNodeExtras)
    ensures Usable(e) ==> (r.value.fields["url"] == e.fields["url"] &&
      forall k :: k in TendermintNodeExtras ==> (k in r.value.fields <==> k in e.fields && Truthy(e.fields[k])))
  {
    if Usable(e) then Some(JObj(PickTruthy(e.fields, TendermintNodeExtras)["url" := e.fields["url"]]))
    else if e.JStr? then Some(JObj(map["url" := e]))
    else None
  }

  /** One `nodes` entry of the Tendermint fallback: the url of a dict with a url. */
  function UrlOnlyNode(n: Json): (r: Option<Json>)
    ensures r.Some? <==> Usable(n)
    ensures r.Some? ==> r.value == JObj(map["url" := n.fields["url"]])
  {
    if Usable(n) then Some(JObj(map["url" := n.fields["url"]])) else None
  }

  /** The normalised ETH/SIA nodes of a protocol. */
  function EthNodesOf(info: CoinProtocolInfo): seq<Json>
  {
    Collect(Iterated(info.nodes), EthNode)
  }

  /** The normalised Tendermint nodes: from `rpc_urls`, else from `nodes`. */
  function TendermintNodesOf(info: CoinProtocolInfo): seq<Json>
  {
    var fromRpc := Collect(Iterated(info.rpcUrls), TendermintRpcNode);
    if fromRpc != [] then fromRpc else Collect(Iterated(info.nodes), UrlOnlyNode)
  }

  /** `_normalize_eth_nodes` */
  method NormalizeEthNodes(nodes: Json) returns (norm: seq<Json>)
    ensures norm == Collect(Iterated(nodes), EthNode)
  {
    norm := [];
    if Truthy(nodes) {
      norm := CollectEntries(Iterated(nodes), EthNode);
    }
  }

  /** `_normalize_tendermint_nodes` */
  method NormalizeTendermintNodes(info: CoinProtocolInfo) returns (nodes: seq<Json>)
    ensures nodes == TendermintNodesOf(info)
  {
    nodes := [];
    if Truthy(info.rpcUrls) {
      nodes := CollectEntries(Iterated(info.rpcUrls), TendermintRpcNode);
    }
    if nodes == [] && Truthy(info.nodes) {
      nodes := CollectEntries(Iterated(info.nodes), UrlOnlyNode);
    }
  }

  /** Every normalised ETH node is a dict holding a url and at most the two
      extra endpoints; there is one for every dict with a url or string
      entry, and none exactly when the list has no such entry. */
  lemma EthNodesShape(info: CoinProtocolInfo)
    ensures forall x :: x in EthNodesOf(info) ==>
      x.JObj? && "url" in x.fields && x.fields.Keys <= {"url"} + EthNodeExtras
    ensures |EthNodesOf(info)| <= |Iterated(info.nodes)|
    ensures EthNodesOf(info) == [] <==> forall n :: n in Iterated(info.nodes) ==> !Usable(n) && !n.JStr?
  {
    CollectFrom(Iterated(info.nodes), EthNode);
    CollectEmpty(Iterated(info.nodes), EthNode);
  }

  /** A node list configured as a string is iterated by character: every
      character becomes a node whose url is that one character. */
  lemma EthNodesOfString(info: CoinProtocolInfo)
    requires info.nodes.JStr?
    ensures |EthNodesOf(info)| == |info.nodes.s|
    ensures forall i :: 0 <= i < |info.nodes.s| ==> EthNodesOf(info)[i] == JObj(map["url" := JStr([info.nodes.s[i]])])
  {
    CollectKeepsAll(Iterated(info.nodes), EthNode);
  }

  /** Tendermint nodes come from `rpc_urls` whenever one of its entries is
      usable, and are bare urls of `nodes` entries otherwise. */
  lemma TendermintNodesShape(info: CoinProtocolInfo)
    ensures forall x :: x in TendermintNodesOf(info) ==>
      x.JObj? && "url" in x.fields && x.fields.Keys <= {"url"} + TendermintNodeExtras
    ensures (exists e :: e in Iterated(info.rpcUrls) && (Usable(e) || e.JStr?)) ==>
      TendermintNodesOf(info) == Collect(Iterated(info.rpcUrls), TendermintRpcNode)
    ensures (forall e :: e in Iterated(info.rpcUrls) ==> !Usable(e) && !e.JStr?) ==>
      forall x :: x in TendermintNodesOf(info) ==> (x.fields.Keys == {"url"} &&
        exists n :: n in Iterated(info.nodes) && Usable(n) && x.fields["url"] == n.fields["url"])
  {
    CollectFrom(Iterated(info.rpcUrls), TendermintRpcNode);
    CollectEmpty(Iterated(info.rpcUrls), TendermintRpcNode);
    CollectFrom(Iterated(info.nodes), UrlOnlyNode);
  }

  /** The nodes a builder puts into its params: between one and three of the
      normalised nodes, chosen as the selectors promise. */
  predicate NodeSelection(v: Json, pool: seq<Json>)
  {
    v.JArr? && 1 <= |v.items| <= 3 && PreferredSelection(v.items, pool, 3, ServerIsPreferred)
  }

  // ------------------------------------------------------------- builders

  /** The nodes `_build_eth_activation` selects: none when normalisation
      yields none, otherwise between one and three of them. */
  method SelectEthNodes(info: CoinProtocolInfo) returns (selected: seq<Json>)
    ensures selected == [] <==> EthNodesOf(info) == []
    ensures selected != [] ==> NodeSelection(JArr(selected), EthNodesOf(info))
  {
    selected := [];
    if Truthy(info.nodes) {
      var nodes := NormalizeEthNodes(info.nodes);
      selected := SelectPreferredServers(nodes, 3);
    } else {
      assert Iterated(info.nodes) == [];
    }
  }

  /** The params dict of `_build_eth_activation` around a node selection. */
  function EthParams(ticker: string, info: CoinProtocolInfo, selected: seq<Json>): (p: Object)
    ensures Sets(p, "ticker", JStr(ticker)) && Sets(p, "tx_history", JBool(true))
    ensures Sets(p, "get_balances", JBool(true)) && Sets(p, "erc20_tokens_requests", JArr([]))
    ensures p.Keys <= {"ticker", "tx_history", "get_balances", "erc20_tokens_requests", "nodes",
                       "swap_contract_address", "fallback_swap_contract"}
    ensures "nodes" in p <==> selected != []
    ensures "nodes" in p ==> p["nodes"] == JArr(selected)
    ensures "activation_params" !in p
    ensures "swap_contract_address" in p <==> Truthy(info.swapContractAddress)
    ensures "swap_contract_address" in p ==> p["swap_contract_address"] == info.swapContractAddress
    ensures "fallback_swap_contract" in p <==> Truthy(info.fallbackSwapContract)
    ensures "fallback_swap_contract" in p ==> p["fallback_swap_contract"] == info.fallbackSwapContract
  {
    var base := map["ticker" := JStr(ticker), "tx_history" := JBool(true),
                     "get_balances" := JBool(true), "erc20_tokens_requests" := JArr([])];
    var withNodes := if selected != [] then base["nodes" := JArr(selected)] else base;
    var withSwap := if Truthy(info.swapContractAddress)
                    then withNodes["swap_contract_address" := info.swapContractAddress] else withNodes;
    if Truthy(info.fallbackSwapContract)
    then withSwap["fallback_swap_contract" := info.fallbackSwapContract] else withSwap
  }

  /** `_build_eth_activation` */
  method BuildEthActivation(ticker: string, info: CoinProtocolInfo) returns (r: ActivationRequest)
    ensures EthRequest(r, ticker, info)
  {
    var selected := SelectEthNodes(info);
    r := ActivationRequest(EthInit, JObj(EthParams(ticker, info, selected)), 60, true);
  }

  /** A request `_build_eth_activation` can return: the ETH init method,
      and params around a selection of the normalised nodes. */
  ghost predicate EthRequest(r: ActivationRequest, ticker: string, info: CoinProtocolInfo)
  {
    && r.rpcMethod == EthInit && r.timeout == 60 && r.isTask
    && exists selected ::
      && r.params == JObj(EthParams(ticker, info, selected))
      && (selected == [] <==> EthNodesOf(info) == [])
      && (selected != [] ==> NodeSelection(JArr(selected), EthNodesOf(info)))
  }

  /** A request `_build_tendermint_activation` can return. */
  ghost predicate TendermintRequest(r: ActivationRequest, ticker: string, info: CoinProtocolInfo)
  {
    && r.rpcMethod == TendermintInit && r.timeout == 60 && r.isTask
    && exists selected ::
      && r.params == JObj(TendermintParams(ticker, selected))
      && (selected == [] <==> TendermintNodesOf(info) == [])
      && (selected != [] ==> NodeSelection(JArr(selected), TendermintNodesOf(info)))
  }

  /** The nodes `_build_tendermint_activation` selects: none when
      normalisation yields none, otherwise between one and three of them. */
  method SelectTendermintNodes(info: CoinProtocolInfo) returns (selected: seq<Json>)
    ensures selected == [] <==> TendermintNodesOf(info) == []
    ensures selected != [] ==> NodeSelection(JArr(selected), TendermintNodesOf(info))
  {
    selected := [];
    var nodes := NormalizeTendermintNodes(info);
    if nodes != [] {
      selected := SelectPreferredServers(nodes, 3);
    }
  }

  /** The params dict of `_build_tendermint_activation` around a node selection. */
  function TendermintParams(ticker: string, selected: seq<Json>): (p: Object)
    ensures Sets(p, "ticker", JStr(ticker)) && Sets(p, "tx_history", JBool(false))
    ensures Sets(p, "get_balances", JBool(true)) && Sets(p, "tokens_params", JArr([]))
    ensures p.Keys <= {"ticker", "tx_history", "get_balances", "tokens_params", "nodes"}
    ensures "activation_params" !in p
    ensures "nodes" in p <==> selected != []
    ensures "nodes" in p ==> p["nodes"] == JArr(selected)
  {
    var base := map["ticker" := JStr(ticker), "tx_history" := JBool(false),
                     "get_balances" := JBool(true), "tokens_params" := JArr([])];
    if selected != [] then base["nodes" := JArr(selected)] else base
  }

  /** `_build_tendermint_activation` */
  method BuildTendermintActivation(ticker: string, info: CoinProtocolInfo) returns (r: ActivationRequest)
    ensures TendermintRequest(r, ticker, info)
  {
    var selected := SelectTendermintNodes(info);
    r := ActivationRequest(TendermintInit, JObj(TendermintParams(ticker, selected)), 60, true);
  }

  /** The SIA server url when the configuration names none; the braces are
      part of the text, not a substitution. */
  const SiaPlaceholder := "Not found for {ticker} in coins_config.json!"

  /** The url of the first normalised node when it is truthy, else the placeholder. */
  function SiaServerUrl(info: CoinProtocolInfo): (url: Json)
    ensures url == JStr(SiaPlaceholder) || (Truthy(url) && exists x :: x in EthNodesOf(info) && Field(x, "url") == url)
  {
    var nodes := EthNodesOf(info);
    if Truthy(info.nodes) && nodes != [] && Truthy(Field(nodes[0], "url")) then Field(nodes[0], "url")
    else JStr(SiaPlaceholder)
  }

  /** `_build_sia_activation` */
  function BuildSiaActivation(ticker: string, info: CoinProtocolInfo): (r: ActivationRequest)
    ensures r.rpcMethod == SiaInit && r.timeout == 60 && r.isTask
    ensures Field(r.params, "ticker") == JStr(ticker) && Field(r.params, "client_id") == JInt(0)
    ensures GetIn(r.params, ["activation_params", "client_conf", "server_url"]) == SiaServerUrl(info)
    ensures GetIn(r.params, ["activation_params", "client_conf", "headers"]) == JObj(map[])
    ensures GetIn(r.params, ["activation_params", "tx_history"]) == JBool(true)
    ensures NoHdKeys(Field(r.params, "activation_params"))
    ensures var confirmations := GetIn(r.params, ["activation_params", "required_confirmations"]);
      && (Truthy(info.requiredConfirmations) ==> confirmations == info.requiredConfirmations)
      && (!Truthy(info.requiredConfirmations) ==> confirmations == JInt(3))
  {
    var clientConf := JObj(map["headers" := JObj(map[]), "server_url" := SiaServerUrl(info)]);
    var activationParams := JObj(map["client_conf" := clientConf,
                                     "required_confirmations" := Or(info.requiredConfirmations, JInt(3)),
                                     "tx_history" := JBool(true)]);
    ActivationRequest(SiaInit, JObj(map["activation_params" := activationParams, "client_id" := JInt(0),
                                        "ticker" := JStr(ticker)]), 60, true)
  }

  /** The first converted entry of a list is the conversion of its first
      convertible entry. */
  lemma {:induction false} CollectFirst(s: seq<Json>, f: Json -> Option<Json>)
    requires s != [] && f(s[0]).Some?
    ensures Collect(s, f) != [] && Collect(s, f)[0] == f(s[0]).value
  {
    if |s| > 1 {
      CollectFirst(s[..|s| - 1], f);
    }
  }

  /** SIA connects to the first configured node when it is a dict with a url
      or a non-empty string, and to the placeholder when no node is configured. */
  lemma SiaUsesFirstNode(info: CoinProtocolInfo)
    ensures var nodes := Iterated(info.nodes);
      nodes != [] && (Usable(nodes[0]) || (nodes[0].JStr? && nodes[0].s != [])) ==>
        SiaServerUrl(info) == (if nodes[0].JStr? then nodes[0] else nodes[0].fields["url"])
    ensures !Truthy(info.nodes) ==> SiaServerUrl(info) == JStr(SiaPlaceholder)
  {
    var nodes := Iterated(info.nodes);
    if nodes != [] && (Usable(nodes[0]) || (nodes[0].JStr? && nodes[0].s != [])) {
      CollectFirst(nodes, EthNode);
    }
  }

  /** The hierarchical-deterministic wallet fields. */
  const HdFields: Object := map[
    "path_to_address" := JObj(map["account_id" := JInt(0), "address_id" := JInt(0), "chain" := JStr("External")]),
    "scan_policy" := JStr("scan_if_new_wallet"),
    "gap_limit" := JInt(20),
    "min_addresses_number" := JInt(3),
    "priv_key_policy" := JStr("ContextPrivKey")]

  /** Every HD field is present with its fixed value. */
  predicate HasHdBlock(activationParams: Json)
  {
    activationParams.JObj? && forall k :: k in HdFields ==> Sets(activationParams.fields, k, HdFields[k])
  }

  /** No HD field is present. */
  predicate NoHdKeys(activationParams: Json)
  {
    forall k :: k in HdFields ==> !HasField(activationParams, k)
  }

  /** The params dict shared by the UTXO and ZHTLC builders: the HD fields
      join `activation_params` exactly when `enable_hd` is set. */
  function UtxoFamilyParams(ticker: string, mode: Json, enableHd: bool): (p: Object)
    ensures Sets(p, "ticker", JStr(ticker)) && Sets(p, "tx_history", JBool(true))
    ensures Sets(p, "get_balances", JBool(true))
    ensures "activation_params" in p && p["activation_params"].JObj?
    ensures Sets(p["activation_params"].fields, "mode", mode)
    ensures p["activation_params"].fields.Keys == {"mode"} + (if enableHd then HdFields.Keys else {})
    ensures enableHd <==> HasHdBlock(p["activation_params"])
    ensures !enableHd ==> NoHdKeys(p["activation_params"])
  {
    var activationParams := if enableHd then map["mode" := mode] + HdFields else map["mode" := mode];
    assert "path_to_address" in HdFields;
    map["ticker" := JStr(ticker), "tx_history" := JBool(true), "get_balances" := JBool(true),
        "activation_params" := JObj(activationParams)]
  }

  /** `_build_utxo_activation` */
  function BuildUtxoActivation(ticker: string, info: CoinProtocolInfo, enableHd: bool): (r: ActivationRequest)
    ensures r.rpcMethod == UtxoInit && r.timeout == 60 && r.isTask
    ensures Field(r.params, "ticker") == JStr(ticker) && Field(r.params, "tx_history") == JBool(true)
    ensures var activationParams := Field(r.params, "activation_params");
      && (HasHdBlock(activationParams) <==> enableHd)
      && (!enableHd ==> NoHdKeys(activationParams))
    ensures GetIn(r.params, ["activation_params", "mode", "rpc"]) == JStr("Electrum")
    ensures GetIn(r.params, ["activation_params", "mode", "rpc_data", "servers"])
            == JArr(ElectrumOrder(info.electrum, false, ServerIsCipig))
  {
    var mode := JObj(map["rpc" := JStr("Electrum"),
                         "rpc_data" := JObj(map["servers" := JArr(ElectrumOrder(info.electrum, false, ServerIsCipig))])]);
    ActivationRequest(UtxoInit, JObj(UtxoFamilyParams(ticker, mode, enableHd)), 60, true)
  }

  /** `x[:3]` on a list or a string; other values read as `[]`. */
  function Take3(j: Json): (r: Json)
    ensures j.JArr? ==> (r.JArr? && |r.items| == (if |j.items| <= 3 then |j.items| else 3) &&
      r.items == j.items[..|r.items|])
  {
    match j
    case JArr(a) => JArr(if |a| <= 3 then a else a[..3])
    case JStr(s) => JStr(if |s| <= 3 then s else s[..3])
    case _ => JArr([])
  }

  /** The `rpc_data` of `_build_zhtlc_activation`: the first three light wallet
      servers of the configuration when the protocol has any, and the
      filtered electrum servers when there are any. */
  function ZhtlcRpcData(cm: CoinsConfigManager, ticker: string, info: CoinProtocolInfo): (d: Object)
    ensures d.Keys <= {"light_wallet_d_servers", "electrum_servers"}
    ensures info == GetProtocolInfo(cm, ticker) ==>
      ("light_wallet_d_servers" in d <==> Truthy(info.lightWalletDServers))
    ensures "light_wallet_d_servers" in d ==>
      d["light_wallet_d_servers"] == Take3(Field(GetCoinConfig(cm, ticker), "light_wallet_d_servers"))
    ensures "electrum_servers" in d <==> ElectrumOrder(info.electrum, false, ServerIsCipig) != []
    ensures "electrum_servers" in d ==> d["electrum_servers"] == JArr(ElectrumOrder(info.electrum, false, ServerIsCipig))
  {
    var config := AsObject(GetCoinConfig(cm, ticker));
    var lightServers := GetOr(config, "light_wallet_d_servers", JArr([]));
    var light: Object :=
      if Truthy(info.lightWalletDServers) && Truthy(lightServers)
      then map["light_wallet_d_servers" := Take3(lightServers)] else map[];
    if !Truthy(info.electrum) then
      ElectrumOrderOfFalsy(info.electrum, false, ServerIsCipig);
      light
    else
      var electrum := ElectrumOrder(info.electrum, false, ServerIsCipig);
      light + (if electrum != [] then map["electrum_servers" := JArr(electrum)] else map[])
  }

  /** A native-mode UTXO-family request around an `rpc_data` dict. */
  function NativeRequest(ticker: string, rpcData: Object, enableHd: bool): (r: ActivationRequest)
    ensures r.rpcMethod == UtxoInit && r.timeout == 60 && r.isTask
    ensures Field(r.params, "ticker") == JStr(ticker) && Field(r.params, "tx_history") == JBool(true)
    ensures var activationParams := Field(r.params, "activation_params");
      && (HasHdBlock(activationParams) <==> enableHd)
      && (!enableHd ==> NoHdKeys(activationParams))
    ensures GetIn(r.params, ["activation_params", "mode", "rpc"]) == JStr("Native")
    ensures GetIn(r.params, ["activation_params", "mode", "rpc_data"]) == JObj(rpcData)
  {
    var mode := JObj(map["rpc" := JStr("Native"), "rpc_data" := JObj(rpcData)]);
    ActivationRequest(UtxoInit, JObj(UtxoFamilyParams(ticker, mode, enableHd)), 60, true)
  }

  /** `_build_zhtlc_activation` */
  function BuildZhtlcActivation(cm: CoinsConfigManager, ticker: string, info: CoinProtocolInfo, enableHd: bool)
    : (r: ActivationRequest)
    ensures r.rpcMethod == UtxoInit && r.timeout == 60 && r.isTask
    ensures Field(r.params, "ticker") == JStr(ticker) && Field(r.params, "tx_history") == JBool(true)
    ensures var activationParams := Field(r.params, "activation_params");
      && (HasHdBlock(activationParams) <==> enableHd)
      && (!enableHd ==> NoHdKeys(activationParams))
    ensures GetIn(r.params, ["activation_params", "mode", "rpc"]) == JStr("Native")
    ensures GetIn(r.params, ["activation_params", "mode", "rpc_data"]) == JObj(ZhtlcRpcData(cm, ticker, info))
  {
    NativeRequest(ticker, ZhtlcRpcData(cm, ticker, info), enableHd)
  }

  /** `build_activation_request`: the family decides the builder. */
  method BuildActivationRequest(cm: CoinsConfigManager, ticker: string, enableHd: bool)
    returns (r: Result<ActivationRequest, BuildError>)
    ensures var family := GetProtocolInfo(cm, ticker).protocolType;
      && (r.Ok? <==> family in Families)
      && (r.Err? ==> r.error == UnsupportedProtocol(family, ticker))
      && (family == JStr("ETH") ==> r.Ok? && r.value.rpcMethod == EthInit)
      && (family == JStr("TENDERMINT") ==> r.Ok? && r.value.rpcMethod == TendermintInit)
      && (family == JStr("UTXO") || family == JStr("ZHTLC") ==> r.Ok? && r.value.rpcMethod == UtxoInit)
      && (family == JStr("SIA") ==> r.Ok? && r.value.rpcMethod == SiaInit)
    ensures r.Ok? ==> r.value.timeout == 60 && r.value.isTask && Field(r.value.params, "ticker") == JStr(ticker)
    ensures r.Ok? ==> r.value.rpcMethod == InitMethod(GetProtocolInfo(cm, ticker).protocolType)
    ensures FamilyBuilt(r, cm, ticker, GetProtocolInfo(cm, ticker), enableHd)
    ensures r.Ok? ==> var family := GetProtocolInfo(cm, ticker).protocolType;
      var activationParams := Field(r.value.params, "activation_params");
      && (HasHdBlock(activationParams) <==> enableHd && (family == JStr("UTXO") || family == JStr("ZHTLC")))
      && (!enableHd ==> NoHdKeys(activationParams))
  {
    var info := GetProtocolInfo(cm, ticker);
    r := BuildForFamily(cm, ticker, info, enableHd);
  }

  /** The builder each family is dispatched to: ETH and Tendermint select
      their nodes, UTXO, ZHTLC and SIA build their request outright. */
  ghost predicate FamilyBuilt(r: Result<ActivationRequest, BuildError>, cm: CoinsConfigManager, ticker: string,
                              info: CoinProtocolInfo, enableHd: bool)
  {
    var family := info.protocolType;
    && (family == JStr("ETH") ==> r.Ok? && EthRequest(r.value, ticker, info))
    && (family == JStr("TENDERMINT") ==> r.Ok? && TendermintRequest(r.value, ticker, info))
    && (family == JStr("UTXO") ==> r == Ok(BuildUtxoActivation(ticker, info, enableHd)))
    && (family == JStr("ZHTLC") ==> r == Ok(BuildZhtlcActivation(cm, ticker, info, enableHd)))
    && (family == JStr("SIA") ==> r == Ok(BuildSiaActivation(ticker, info)))
  }

  /** The dispatch of `build_activation_request` on an already read protocol. */
  method BuildForFamily(cm: CoinsConfigManager, ticker: string, info: CoinProtocolInfo, enableHd: bool)
    returns (r: Result<ActivationRequest, BuildError>)
    ensures var family := info.protocolType;
      && (r.Ok? <==> family in Families)
      && (r.Err? ==> r.error == UnsupportedProtocol(family, ticker))
      && (r.Ok? ==> r.value.rpcMethod == InitMethod(family))
    ensures FamilyBuilt(r, cm, ticker, info, enableHd)
    ensures r.Ok? ==> r.value.timeout == 60 && r.value.isTask && Field(r.value.params, "ticker") == JStr(ticker)
    ensures r.Ok? ==> var family := info.protocolType;
      var activationParams := Field(r.value.params, "activation_params");
      && (HasHdBlock(activationParams) <==> enableHd && (family == JStr("UTXO") || family == JStr("ZHTLC")))
      && (!enableHd ==> NoHdKeys(activationParams))
  {
    var family := info.protocolType;
    assert "path_to_address" in HdFields;
    if family == JStr("ETH") {
      var request := BuildEthActivation(ticker, info);
      r := Ok(request);
    } else if family == JStr("TENDERMINT") {
      var request := BuildTendermintActivation(ticker, info);
      r := Ok(request);
    } else if family == JStr("UTXO") {
      r := Ok(BuildUtxoActivation(ticker, info, enableHd));
    } else if family == JStr("ZHTLC") {
      r := Ok(BuildZhtlcActivation(cm, ticker, info, enableHd));
    } else if family == JStr("SIA") {
      r := Ok(BuildSiaActivation(ticker, info));
    } else {
      r := Err(UnsupportedProtocol(family, ticker));
    }
  }

  // ------------------------------------------------------- token request

  /** The `activation_params` of a token request: `int(required_confirmations)`
      when the configuration has a value that converts, nothing otherwise. */
  function TokenActivationParams(confirmations: Json): (ap: Object)
    ensures ap.Keys <= {"required_confirmations"}
    ensures "required_confirmations" in ap <==> IntCoerce(confirmations).Some?
    ensures "required_confirmations" in ap ==> ap["required_confirmations"] == JInt(IntCoerce(confirmations).value)
  {
    if IsPresent(confirmations) && IntCoerce(confirmations).Some?
    then map["required_confirmations" := JInt(IntCoerce(confirmations).value)]
    else map[]
  }

  /** The test that picks `enable_erc20` over `enable_tendermint_token`. */
  predicate IsEvmToken(ticker: string, info: CoinProtocolInfo, parent: Json)
  {
    EndsWith(Upper(ticker), "-ERC20") || IsPresent(info.contractAddress) || parent == JStr("ETH")
  }

  /** `build_token_activation_request`: the request and the parent coin. */
  function BuildTokenActivationRequest(cm: CoinsConfigManager, ticker: string)
    : (r: Result<(ActivationRequest, Json), BuildError>)
    ensures r.Err? <==> !IsToken(cm, ticker).isToken
    ensures r.Err? ==> r.error == NotAToken(ticker)
    ensures r.Ok? ==>
      var request := r.value.0;
      var info := GetProtocolInfo(cm, ticker);
      && r.value.1 == IsToken(cm, ticker).parent
      && request.timeout == 30 && !request.isTask
      && (request.rpcMethod == "enable_erc20" <==> IsEvmToken(ticker, info, r.value.1))
      && (request.rpcMethod == "enable_erc20" || request.rpcMethod == "enable_tendermint_token")
      && request.params == JObj(map["ticker" := JStr(ticker),
                                    "activation_params" := JObj(TokenActivationParams(info.requiredConfirmations))])
  {
    var check := IsToken(cm, ticker);
    if !check.isToken then Err(NotAToken(ticker))
    else
      var info := GetProtocolInfo(cm, ticker);
      var params := JObj(map["ticker" := JStr(ticker),
                             "activation_params" := JObj(TokenActivationParams(info.requiredConfirmations))]);
      var rpcMethod := if IsEvmToken(ticker, info, check.parent) then "enable_erc20" else "enable_tendermint_token";
      Ok((ActivationRequest(rpcMethod, params, 30, false), check.parent))
  }

  /** A confirmation count written as text reaches the token request as
      that number; a value that does not convert is dropped. */
  lemma TokenConfirmationsFromText(n: int, other: Json)
    requires IntCoerce(other).None?
    ensures TokenActivationParams(JStr(IntToString(n))) == map["required_confirmations" := JInt(n)]
    ensures TokenActivationParams(other) == map[]
  {
    IntCoerceOfDecimalText(n);
  }

  /** Upper-casing keeps a suffix a suffix. */
  lemma UpperEndsWith(s: string, suffix: string)
    requires EndsWith(s, suffix)
    ensures EndsWith(Upper(s), Upper(suffix))
  {
    assert Upper(s)[|s| - |suffix|..] == Upper(suffix) by {
      forall i | 0 <= i < |suffix| ensures Upper(s)[|s| - |suffix|..][i] == Upper(suffix)[i] {
        assert s[|s| - |suffix|..][i] == suffix[i];
      }
    }
  }

  /** A token ticker spelled with a lower-case `-erc20` suffix is still an ERC20 token. */
  lemma LowerCaseErc20SuffixIsEvm(cm: CoinsConfigManager, ticker: string)
    requires IsToken(cm, ticker).isToken && EndsWith(ticker, "-erc20")
    ensures BuildTokenActivationRequest(cm, ticker).Ok?
    ensures BuildTokenActivationRequest(cm, ticker).value.0.rpcMethod == "enable_erc20"
  {
    UpperEndsWith(ticker, "-erc20");
    assert Upper("-erc20") == "-ERC20";
  }

  // ------------------------------------------- refreshing an existing request

  /** `_is_wasm_mode`: a `__wasm` flag that `is True`, at the root or in a
      params dict; a request that is not a dict is not Wasm. */
  predicate IsWasmMode(request: Json)
  {
    IsTrue(Field(request, "__wasm")) ||
    (Field(request, "params").JObj? && IsTrue(Field(Field(request, "params"), "__wasm")))
  }

  /** Only a flag that is literally `true` counts. */
  lemma WasmFlagMustBeTrue(request: Json)
    requires IsWasmMode(request)
    ensures request.JObj?
    ensures Field(request, "__wasm") == JBool(true) || GetIn(request, ["params", "__wasm"]) == JBool(true)
  {
  }

  /** The request dict that `update_*_in_request` edits in place. */
  class RequestDocument {
    var data: Json

    constructor (data: Json)
      ensures this.data == data
    {
      this.data := data;
    }
  }

  /** Where a refreshed list goes, and whether that place takes bare urls. */
  datatype Slot = Slot(path: seq<string>, urlsOnly: bool)

  /** `j[path] = v` when there is such a place, `j` otherwise. */
  function ReplaceAt(j: Json, slot: Option<Slot>, v: Json): Json
  {
    if slot.Some? && HasPath(j, slot.value.path) then SetIn(j, slot.value.path, v) else j
  }

  /** The list a slot receives: the servers, or just their urls. */
  function SlotValue(slot: Slot, servers: seq<Json>): Json
  {
    if slot.urlsOnly then JArr(MapAll(servers, UrlOf)) else JArr(servers)
  }

  /** `s['url']` */
  function UrlOf(server: Json): Json
  {
    Field(server, "url")
  }

  /** The node list Tendermint and ETH requests carry: `params.nodes` when the
      params are a dict holding `nodes`, else a root `nodes`. */
  function NodesSlot(request: Json): (slot: Option<Slot>)
    ensures slot.Some? ==> HasPath(request, slot.value.path) && !slot.value.urlsOnly
    ensures HasPath(request, ["params", "nodes"]) ==> slot == Some(Slot(["params", "nodes"], false))
    ensures slot.None? <==> !HasPath(request, ["params", "nodes"]) && !HasPath(request, ["nodes"])
  {
    if HasPath(request, ["params", "nodes"]) then Some(Slot(["params", "nodes"], false))
    else if HasPath(request, ["nodes"]) then Some(Slot(["nodes"], false))
    else None
  }

  /** ETH also refreshes the `urls` of a legacy `enable` request. */
  function EthSlot(request: Json): (slot: Option<Slot>)
    ensures slot.Some? ==> HasPath(request, slot.value.path)
    ensures NodesSlot(request).Some? ==> slot == NodesSlot(request)
    ensures slot.Some? && slot.value.urlsOnly ==> Field(request, "method") == JStr("enable")
  {
    if NodesSlot(request).Some? then NodesSlot(request)
    else if Field(request, "method") == JStr("enable") && HasPath(request, ["urls"]) then Some(Slot(["urls"], true))
    else None
  }

  /** The electrum list of a UTXO request: under `params`, the
      `activation_params.mode` servers, else the `mode` servers; without a
      params dict, the servers of an `electrum` request or the urls of an
      `enable` request. */
  function UtxoSlot(request: Json): (slot: Option<Slot>)
    ensures slot.Some? ==> HasPath(request, slot.value.path)
    ensures slot.Some? && slot.value.urlsOnly ==> Field(request, "method") == JStr("enable")
    ensures Field(request, "params").JObj? ==> slot.None? || !slot.value.urlsOnly
  {
    if Field(request, "params").JObj? then
      if HasPath(request, ["params", "activation_params", "mode", "rpc_data", "servers"])
      then Some(Slot(["params", "activation_params", "mode", "rpc_data", "servers"], false))
      else if HasPath(request, ["params", "mode", "rpc_data", "servers"])
      then Some(Slot(["params", "mode", "rpc_data", "servers"], false))
      else None
    else if Field(request, "method") == JStr("electrum") && HasPath(request, ["servers"]) then Some(Slot(["servers"], false))
    else if Field(request, "method") == JStr("enable") && HasPath(request, ["urls"]) then Some(Slot(["urls"], true))
    else None
  }

  /** A ZHTLC list (`light_wallet_d_servers` or `electrum_servers`): under
      `params.activation_params.mode` when that mode exists, and only then
      under `params.mode`. */
  function ZhtlcSlot(request: Json, leaf: string): (slot: Option<Slot>)
    ensures slot.Some? ==> HasPath(request, slot.value.path) && !slot.value.urlsOnly
    ensures slot.Some? ==>
      (|slot.value.path| >= 4 && slot.value.path[0] == "params" && slot.value.path[|slot.value.path| - 1] == leaf)
  {
    if !Field(request, "params").JObj? then None
    else if HasPath(request, ["params", "activation_params", "mode"]) then
      if HasPath(request, ["params", "activation_params", "mode", "rpc_data", leaf])
      then Some(Slot(["params", "activation_params", "mode", "rpc_data", leaf], false))
      else None
    else if HasPath(request, ["params", "mode", "rpc_data", leaf])
    then Some(Slot(["params", "mode", "rpc_data", leaf], false))
    else None
  }

  /** Refreshing the light wallet list does not move the electrum list. */
  lemma ZhtlcSlotsIndependent(request: Json, v: Json)
    requires ZhtlcSlot(request, "light_wallet_d_servers").Some?
    ensures var after := SetIn(request, ZhtlcSlot(request, "light_wallet_d_servers").value.path, v);
      ZhtlcSlot(after, "electrum_servers") == ZhtlcSlot(request, "electrum_servers")
  {
    var p := ZhtlcSlot(request, "light_wallet_d_servers").value.path;
    var after := SetIn(request, p, v);
    var q1: seq<string> := ["params", "activation_params", "mode"];
    var q2: seq<string> := ["params", "activation_params", "mode", "rpc_data", "electrum_servers"];
    var q3: seq<string> := ["params", "mode", "rpc_data", "electrum_servers"];
    assert !(p < q1) && !(p < q2) && !(p < q3) by {
      assert p == ["params", "activation_params", "mode", "rpc_data", "light_wallet_d_servers"]
          || p == ["params", "mode", "rpc_data", "light_wallet_d_servers"];
    }
    SetInKeepsPath(request, p, v, q1);
    SetInKeepsPath(request, p, v, q2);
    SetInKeepsPath(request, p, v, q3);
    assert Field(after, "params").JObj?;
  }

  /** One refreshed Tendermint node: the url and the truthy extra endpoints,
      kept only when the url is truthy. */
  function TendermintUpdateNode(e: Json): (r: Option<Json>)
    ensures r.Some? <==> Truthy(Field(e, "url"))
    ensures r.Some? ==> (r.value.JObj? && r.value.fields.Keys <= {"url"} + TendermintNodeExtras &&
      "url" in r.value.fields && r.value.fields["url"] == Field(e, "url"))
  {
    var d := AsObject(e);
    if Truthy(Get(d, "url")) then Some(JObj(PickTruthy(d, TendermintNodeExtras)["url" := Get(d, "url")])) else None
  }

  /** One refreshed ETH node: the url (even when missing) and the truthy extra endpoints. */
  function EthUpdateNode(n: Json): (r: Json)
    ensures r.JObj? && r.fields.Keys <= {"url"} + EthNodeExtras && "url" in r.fields && r.fields["url"] == Field(n, "url")
  {
    var d := AsObject(n);
    JObj(PickTruthy(d, EthNodeExtras)["url" := Get(d, "url")])
  }

  /** One refreshed UTXO server: the url, a truthy protocol, and `ws_url` /
      `disable_cert_verification` when they are not `None`. */
  function UtxoUpdateServer(e: Json): (r: Json)
    ensures r.JObj? && r.fields.Keys <= {"url", "protocol", "ws_url", "disable_cert_verification"}
    ensures "url" in r.fields && r.fields["url"] == Field(e, "url")
    ensures "disable_cert_verification" in r.fields <==> IsPresent(Field(e, "disable_cert_verification"))
  {
    var d := AsObject(e);
    JObj((PickTruthy(d, {"protocol"}) + PickNotNone(d, {"ws_url", "disable_cert_verification"}))["url" := Get(d, "url")])
  }

  /** One refreshed ZHTLC electrum server: the url and a truthy protocol and `ws_url`. */
  function ZhtlcUpdateServer(e: Json): (r: Json)
    ensures r.JObj? && r.fields.Keys <= {"url", "protocol", "ws_url"} && "url" in r.fields && r.fields["url"] == Field(e, "url")
  {
    var d := AsObject(e);
    JObj(PickTruthy(d, {"protocol", "ws_url"})["url" := Get(d, "url")])
  }

  /** The new node list of `update_tendermint_nodes_in_request`. */
  method RefreshTendermintNodes(info: CoinProtocolInfo) returns (nodes: seq<Json>)
    ensures |nodes| <= 3
    ensures exists selected ::
      (PreferredSelection(selected, AsList(info.rpcUrls), 3, ServerIsPreferred) && nodes == Collect(selected, TendermintUpdateNode))
  {
    var selected := SelectPreferredServers(AsList(info.rpcUrls), 3);
    nodes := CollectEntries(selected, TendermintUpdateNode);
    assert PreferredSelection(selected, AsList(info.rpcUrls), 3, ServerIsPreferred);
  }

  /** The new node list of `update_eth_nodes_in_request`. */
  method RefreshEthNodes(info: CoinProtocolInfo) returns (nodes: seq<Json>)
    ensures |nodes| <= 3
    ensures exists selected ::
      (PreferredSelection(selected, AsList(info.nodes), 3, ServerIsPreferred) && nodes == MapAll(selected, EthUpdateNode))
  {
    var selected := SelectPreferredServers(AsList(info.nodes), 3);
    nodes := MapEntries(selected, EthUpdateNode);
    assert PreferredSelection(selected, AsList(info.nodes), 3, ServerIsPreferred);
  }

  /** The new server list of `update_utxo_electrum_in_request`. */
  method RefreshUtxoServers(info: CoinProtocolInfo, preferWss: bool) returns (servers: seq<Json>)
    ensures servers == MapAll(ElectrumOrder(info.electrum, preferWss, ServerIsPreferred), UtxoUpdateServer)
  {
    var selected := FilterElectrumServersWithMode(info.electrum, preferWss);
    servers := MapEntries(selected, UtxoUpdateServer);
  }

  /** The new electrum list of `update_zhtlc_in_request`. */
  method RefreshZhtlcServers(info: CoinProtocolInfo, preferWss: bool) returns (servers: seq<Json>)
    ensures servers == MapAll(ElectrumOrder(info.electrum, preferWss, ServerIsPreferred), ZhtlcUpdateServer)
  {
    var selected := FilterElectrumServersWithMode(info.electrum, preferWss);
    servers := MapEntries(selected, ZhtlcUpdateServer);
  }

  /** The configured light wallet servers ZHTLC refreshes from: the Wasm
      list in Wasm mode; a missing or non-list value gives none. */
  function LightSource(cm: CoinsConfigManager, ticker: string, preferWss: bool): seq<Json>
  {
    var config := GetCoinConfig(cm, ticker);
    var key := if preferWss then "light_wallet_d_servers_wss" else "light_wallet_d_servers";
    var servers := Or(Field(config, key), JArr([]));
    if Truthy(config) && servers.JArr? then servers.items else []
  }

  /** The new light wallet list of `update_zhtlc_in_request`. */
  method RefreshLightServers(cm: CoinsConfigManager, ticker: string, preferWss: bool) returns (light: seq<Json>)
    ensures light == [] <==> LightSource(cm, ticker, preferWss) == []
    ensures PreferredSelection(light, LightSource(cm, ticker, preferWss), 3, UrlIsPreferred)
  {
    light := [];
    var source := LightSource(cm, ticker, preferWss);
    if source != [] {
      light := SelectPreferredUrls(source, 3);
    }
  }

  /** What `update_tendermint_nodes_in_request` does to the request `before`:
      with `rpc_urls` configured and a nodes slot present, the slot gets up
      to three preferred servers reduced to their node fields; otherwise
      nothing changes. */
  ghost predicate TendermintRefresh(before: Json, after: Json, updated: bool, info: CoinProtocolInfo)
  {
    var slot := NodesSlot(before);
    && (updated <==> Truthy(info.rpcUrls) && slot.Some?)
    && (!updated ==> after == before)
    && (updated ==> exists selected ::
          && PreferredSelection(selected, AsList(info.rpcUrls), 3, ServerIsPreferred)
          && after == SetIn(before, slot.value.path, JArr(Collect(selected, TendermintUpdateNode))))
  }

  /** What `update_eth_nodes_in_request` does: with nodes configured and a
      slot present, the slot gets up to three preferred nodes, as urls when
      the slot holds urls; otherwise nothing changes. */
  ghost predicate EthRefresh(before: Json, after: Json, updated: bool, info: CoinProtocolInfo)
  {
    var slot := EthSlot(before);
    && (updated <==> Truthy(info.nodes) && slot.Some?)
    && (!updated ==> after == before)
    && (updated ==> exists selected ::
          && PreferredSelection(selected, AsList(info.nodes), 3, ServerIsPreferred)
          && after == SetIn(before, slot.value.path, SlotValue(slot.value, MapAll(selected, EthUpdateNode))))
  }

  /** What `update_utxo_electrum_in_request` does: with electrum servers
      configured and a slot present, the slot gets the servers chosen for
      the request's mode; otherwise nothing changes. */
  ghost predicate UtxoRefresh(before: Json, after: Json, updated: bool, info: CoinProtocolInfo)
  {
    var slot := UtxoSlot(before);
    var servers := MapAll(ElectrumOrder(info.electrum, IsWasmMode(before), ServerIsPreferred), UtxoUpdateServer);
    && (updated <==> Truthy(info.electrum) && slot.Some?)
    && (!updated ==> after == before)
    && (updated ==> after == SetIn(before, slot.value.path, SlotValue(slot.value, servers)))
  }

  /** What `update_zhtlc_in_request` does: the light wallet slot gets up to
      three preferred configured servers when both exist, the electrum slot
      the servers chosen for the mode when both exist, and the result says
      whether either was refreshed. */
  ghost predicate ZhtlcRefresh(cm: CoinsConfigManager, before: Json, after: Json, updated: bool,
                               info: CoinProtocolInfo, ticker: string)
  {
    var preferWss := IsWasmMode(before);
    var lightSlot := ZhtlcSlot(before, "light_wallet_d_servers");
    var electrumSlot := ZhtlcSlot(before, "electrum_servers");
    var lightOn := lightSlot.Some? && LightSource(cm, ticker, preferWss) != [];
    var electrumOn := electrumSlot.Some? && Truthy(info.electrum);
    var servers := MapAll(ElectrumOrder(info.electrum, preferWss, ServerIsPreferred), ZhtlcUpdateServer);
    && (updated <==> lightOn || electrumOn)
    && exists light ::
         && PreferredSelection(light, LightSource(cm, ticker, preferWss), 3, UrlIsPreferred)
         && after == ReplaceAt(ReplaceAt(before, if lightOn then lightSlot else None, JArr(light)),
                               if electrumOn then electrumSlot else None, JArr(servers))
  }

  /** `update_tendermint_nodes_in_request` */
  method UpdateTendermintNodesInRequest(doc: RequestDocument, info: CoinProtocolInfo) returns (updated: bool)
    modifies doc
    ensures TendermintRefresh(old(doc.data), doc.data, updated, info)
  {
    if !Truthy(info.rpcUrls) {
      return false;
    }
    var nodes := RefreshTendermintNodes(info);
    ghost var selected :| PreferredSelection(selected, AsList(info.rpcUrls), 3, ServerIsPreferred) &&
      nodes == Collect(selected, TendermintUpdateNode);
    var slot := NodesSlot(doc.data);
    if slot.Some? {
      doc.data := SetIn(doc.data, slot.value.path, JArr(nodes));
      return true;
    }
    return false;
  }

  /** `update_eth_nodes_in_request` */
  method UpdateEthNodesInRequest(doc: RequestDocument, info: CoinProtocolInfo) returns (updated: bool)
    modifies doc
    ensures EthRefresh(old(doc.data), doc.data, updated, info)
  {
    if !Truthy(info.nodes) {
      return false;
    }
    var nodes := RefreshEthNodes(info);
    ghost var selected :| PreferredSelection(selected, AsList(info.nodes), 3, ServerIsPreferred) &&
      nodes == MapAll(selected, EthUpdateNode);
    var slot := EthSlot(doc.data);
    if slot.Some? {
      var value := JArr(nodes);
      if slot.value.urlsOnly {
        var urls := MapEntries(nodes, UrlOf);
        value := JArr(urls);
      }
      doc.data := SetIn(doc.data, slot.value.path, value);
      return true;
    }
    return false;
  }

  /** `update_utxo_electrum_in_request` */
  method UpdateUtxoElectrumInRequest(doc: RequestDocument, info: CoinProtocolInfo) returns (updated: bool)
    modifies doc
    ensures UtxoRefresh(old(doc.data), doc.data, updated, info)
  {
    if !Truthy(info.electrum) {
      return false;
    }
    var preferWss := IsWasmMode(doc.data);
    var servers := RefreshUtxoServers(info, preferWss);
    var slot := UtxoSlot(doc.data);
    if slot.Some? {
      var value := JArr(servers);
      if slot.value.urlsOnly {
        var urls := MapEntries(servers, UrlOf);
        value := JArr(urls);
      }
      doc.data := SetIn(doc.data, slot.value.path, value);
      return true;
    }
    return false;
  }

  /** `update_zhtlc_in_request`: the light wallet list and the electrum list
      are refreshed independently; the result says whether either was. */
  method UpdateZhtlcInRequest(cm: CoinsConfigManager, doc: RequestDocument, info: CoinProtocolInfo, ticker: string)
    returns (updated: bool)
    modifies doc
    ensures ZhtlcRefresh(cm, old(doc.data), doc.data, updated, info, ticker)
  {
    var before := doc.data;
    updated := false;
    var preferWss := IsWasmMode(doc.data);
    var light := RefreshLightServers(cm, ticker, preferWss);
    var lightSlot := ZhtlcSlot(doc.data, "light_wallet_d_servers");
    var lightOn := light != [] && lightSlot.Some?;
    if lightOn {
      ZhtlcSlotsIndependent(doc.data, JArr(light));
      doc.data := SetIn(doc.data, lightSlot.value.path, JArr(light));
      updated := true;
    }
    assert doc.data == ReplaceAt(before, if lightOn then lightSlot else None, JArr(light));
    ghost var middle := doc.data;
    if Truthy(info.electrum) {
      var servers := RefreshZhtlcServers(info, preferWss);
      var electrumSlot := ZhtlcSlot(doc.data, "electrum_servers");
      if electrumSlot.Some? {
        doc.data := SetIn(doc.data, electrumSlot.value.path, JArr(servers));
        updated := true;
      }
    }
  }

  /** `update_nodes_in_request`: find the ticker, then refresh the lists of
      its protocol family; nothing happens without a ticker or for another family. */
  method UpdateNodesInRequest(cm: CoinsConfigManager, doc: RequestDocument) returns (updated: bool)
    modifies doc
    ensures !updated ==> doc.data == old(doc.data)
    ensures var ticker := ExtractTicker(old(doc.data));
      !(ticker.JStr? && Truthy(ticker)) ==> !updated
    ensures var ticker := ExtractTicker(old(doc.data));
      ticker.JStr? && Truthy(ticker) ==>
        var info := GetProtocolInfo(cm, ticker.s);
        var family := Or(info.protocolType, JStr("UNKNOWN"));
        && (family !in {JStr("TENDERMINT"), JStr("UTXO"), JStr("ZHTLC"), JStr("ETH")} ==> !updated)
        && (family == JStr("TENDERMINT") ==> TendermintRefresh(old(doc.data), doc.data, updated, info))
        && (family == JStr("UTXO") ==> UtxoRefresh(old(doc.data), doc.data, updated, info))
        && (family == JStr("ZHTLC") ==> ZhtlcRefresh(cm, old(doc.data), doc.data, updated, info, ticker.s))
        && (family == JStr("ETH") ==> EthRefresh(old(doc.data), doc.data, updated, info))
  {
    var ticker := ExtractTicker(doc.data);
    if !(ticker.JStr? && Truthy(ticker)) {
      return false;
    }
    var info := GetProtocolInfo(cm, ticker.s);
    var family := Or(info.protocolType, JStr("UNKNOWN"));
    if family == JStr("TENDERMINT") {
      updated := UpdateTendermintNodesInRequest(doc, info);
    } else if family == JStr("UTXO") {
      updated := UpdateUtxoElectrumInRequest(doc, info);
    } else if family == JStr("ZHTLC") {
      updated := UpdateZhtlcInRequest(cm, doc, info, ticker.s);
    } else if family == JStr("ETH") {
      updated := UpdateEthNodesInRequest(doc, info);
    } else {
      updated := false;
    }
  }
}
