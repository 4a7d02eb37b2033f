/**
 * The coin configuration lookups of `CoinsConfigManager`: the loaded
 * `coins_config.json` document, the exact-then-uppercase ticker lookup, the
 * protocol family mapping and the token/parent analysis.
 */
module CoinsConfig {
  import opened Wrappers
  import opened Text
  import opened JsonData

  /** The manager after `_load_config`: `coins` is the loaded document, in file
      order, or `None` when the file held `null`. */
  datatype CoinsConfigManager = CoinsConfigManager(coins: Option<Items>)

  /** `CoinProtocolInfo`; every optional field is `JNull` for Python's `None`. */
  datatype CoinProtocolInfo = CoinProtocolInfo(
    protocolType: Json,
    nodes: Json,
    rpcUrls: Json,
    electrum: Json,
    swapContractAddress: Json,
    fallbackSwapContract: Json,
    contractAddress: Json,
    requiredConfirmations: Json,
    lightWalletDServers: Json)

  function UnknownProtocol(): CoinProtocolInfo
  {
    CoinProtocolInfo(JStr("UNKNOWN"), JNull, JNull, JNull, JNull, JNull, JNull, JNull, JNull)
  }

  /** The protocol families every builder dispatches on. */
  const Families: set<Json> := {JStr("UTXO"), JStr("ETH"), JStr("TENDERMINT"), JStr("ZHTLC"), JStr("SIA")}

  /** `get_coin_config`: the exact ticker first, the upper-cased ticker when the
      exact key is missing or its value is falsy. */
  function GetCoinConfig(m: CoinsConfigManager, ticker: string): (r: Json)
    ensures m.coins.None? ==> r == JNull
    ensures m.coins.Some? && Truthy(Lookup(m.coins.value, ticker)) ==> r == Lookup(m.coins.value, ticker)
    ensures m.coins.Some? && !Truthy(Lookup(m.coins.value, ticker)) ==> r == Lookup(m.coins.value, Upper(ticker))
    ensures Truthy(r) ==>
      && m.coins.Some?
      && exists i :: 0 <= i < |m.coins.value| && m.coins.value[i].1 == r &&
           (m.coins.value[i].0 == ticker || m.coins.value[i].0 == Upper(ticker))
  {
    match m.coins
    case None => JNull
    case Some(items) =>
      var exact := Lookup(items, ticker);
      if Truthy(exact) then exact else Lookup(items, Upper(ticker))
  }

  /** An upper-case ticker and its lower-case spelling find the same entry when
      only the upper-case key is stored. */
  lemma GetCoinConfigCaseFallback(m: CoinsConfigManager, ticker: string)
    requires m.coins.Some? && !HasKey(m.coins.value, ticker)
    ensures GetCoinConfig(m, ticker) == GetCoinConfig(m, Upper(ticker))
  {
    UpperIdempotent(ticker);
  }

  /** The raw `protocol.type`: "UNKNOWN" when `protocol` is missing or is not
      a dict, or when it has no `type`. */
  function RawProtocolType(config: Json): Json
  {
    var protocolData := GetOr(AsObject(config), "protocol", JObj(map[]));
    if protocolData.JObj? then GetOr(protocolData.fields, "type", JStr("UNKNOWN")) else JStr("UNKNOWN")
  }

  /** The family mapping of `get_protocol_info`. */
  function MapProtocolType(raw: Json): (family: Json)
    ensures raw in {JStr("UTXO"), JStr("UTXOSTANDARD")} ==> family == JStr("UTXO")
    ensures raw in {JStr("ERC20"), JStr("ETH"), JStr("ETHEREUM")} ==> family == JStr("ETH")
    ensures raw in {JStr("TENDERMINT"), JStr("TENDERMINTTOKEN")} ==> family == JStr("TENDERMINT")
    ensures raw in {JStr("ZHTLC"), JStr("ZCOIN")} ==> family == JStr("ZHTLC")
    ensures raw == JStr("SIA") ==> family == JStr("SIA")
    ensures family in Families || family == raw
    ensures family in Families ==> raw != family ==> raw.JStr?
  {
    if raw == JStr("UTXO") || raw == JStr("UTXOSTANDARD") then JStr("UTXO")
    else if raw == JStr("ERC20") || raw == JStr("ETH") || raw == JStr("ETHEREUM") then JStr("ETH")
    else if raw == JStr("TENDERMINT") || raw == JStr("TENDERMINTTOKEN") then JStr("TENDERMINT")
    else if raw == JStr("ZHTLC") || raw == JStr("ZCOIN") then JStr("ZHTLC")
    else if raw == JStr("SIA") then JStr("SIA")
    else raw
  }

  /** Mapping a family again changes nothing, and a raw type outside the table
      is passed through. */
  lemma MapProtocolTypeStable(raw: Json)
    ensures MapProtocolType(MapProtocolType(raw)) == MapProtocolType(raw)
    ensures raw !in {JStr("UTXO"), JStr("UTXOSTANDARD"), JStr("ERC20"), JStr("ETH"), JStr("ETHEREUM"),
                     JStr("TENDERMINT"), JStr("TENDERMINTTOKEN"), JStr("ZHTLC"), JStr("ZCOIN"), JStr("SIA")}
            ==> MapProtocolType(raw) == raw
  {
  }

  /** A truthy value as it is; any falsy value becomes `None`. */
  function NoneIfFalsy(j: Json): (r: Json)
    ensures r == JNull || (Truthy(r) && r == j)
  {
    if Truthy(j) then j else JNull
  }

  /** `get_protocol_info` */
  function GetProtocolInfo(m: CoinsConfigManager, ticker: string): (info: CoinProtocolInfo)
    ensures !Truthy(GetCoinConfig(m, ticker)) ==> info == UnknownProtocol()
    ensures Truthy(GetCoinConfig(m, ticker)) ==>
      var config := AsObject(GetCoinConfig(m, ticker));
      && info.protocolType == MapProtocolType(RawProtocolType(GetCoinConfig(m, ticker)))
      && info.nodes == NoneIfFalsy(Get(config, "nodes"))
      && info.rpcUrls == NoneIfFalsy(Get(config, "rpc_urls"))
      && info.electrum == NoneIfFalsy(Get(config, "electrum"))
      && info.lightWalletDServers == NoneIfFalsy(Get(config, "light_wallet_d_servers"))
      && info.swapContractAddress == Get(config, "swap_contract_address")
      && info.fallbackSwapContract == Get(config, "fallback_swap_contract")
      && info.contractAddress == Get(config, "contract_address")
      && info.requiredConfirmations == Get(config, "required_confirmations")
    ensures info.nodes == JNull || Truthy(info.nodes)
    ensures info.rpcUrls == JNull || Truthy(info.rpcUrls)
    ensures info.electrum == JNull || Truthy(info.electrum)
    ensures info.lightWalletDServers == JNull || Truthy(info.lightWalletDServers)
  {
    var configValue := GetCoinConfig(m, ticker);
    if !Truthy(configValue) then UnknownProtocol()
    else
      var config := AsObject(configValue);
      CoinProtocolInfo(
        MapProtocolType(RawProtocolType(configValue)),
        NoneIfFalsy(GetOr(config, "nodes", JArr([]))),
        NoneIfFalsy(GetOr(config, "rpc_urls", JArr([]))),
        NoneIfFalsy(GetOr(config, "electrum", JArr([]))),
        Get(config, "swap_contract_address"),
        Get(config, "fallback_swap_contract"),
        Get(config, "contract_address"),
        Get(config, "required_confirmations"),
        NoneIfFalsy(GetOr(config, "light_wallet_d_servers", JArr([]))))
  }

  /** A configured coin whose protocol block carries no usable type is UNKNOWN. */
  lemma MissingTypeIsUnknown(m: CoinsConfigManager, ticker: string)
    requires Truthy(GetCoinConfig(m, ticker))
    requires var p := Field(GetCoinConfig(m, ticker), "protocol"); !p.JObj? || "type" !in p.fields
    ensures GetProtocolInfo(m, ticker).protocolType == JStr("UNKNOWN")
  {
  }

  /** The outcome of `is_token`: whether the ticker is a token, and its parent. */
  datatype TokenCheck = TokenCheck(isToken: bool, parent: Json)

  const TokenProtocolTypes: set<Json> := {
    JStr("ERC20"), JStr("BEP20"), JStr("QRC20"), JStr("PLG20"), JStr("FTM20"),
    JStr("HRC20"), JStr("MVR20"), JStr("AVAX20"), JStr("AVX20")}

  /** The parent a token ticker names by its dash suffix, case-sensitively. */
  function SuffixParent(ticker: string): (parent: Json)
    ensures parent != JNull ==> '-' in ticker
  {
    if '-' !in ticker then JNull
    else
      var suffix := LastSegment(ticker, '-');
      if suffix == "ERC20" then JStr("ETH")
      else if suffix == "BEP20" then JStr("BNB")
      else if suffix == "PLG20" then JStr("MATIC")
      else JNull
  }

  /** The `platform` named in a protocol block's `protocol_data`. */
  function Platform(protocolData: Object): Json
  {
    Field(GetOr(protocolData, "protocol_data", JObj(map[])), "platform")
  }

  /** `is_token` */
  function IsToken(m: CoinsConfigManager, ticker: string): (r: TokenCheck)
    ensures !Truthy(GetCoinConfig(m, ticker)) ==> r == TokenCheck(false, JNull)
    ensures Truthy(GetCoinConfig(m, ticker)) && Truthy(Field(GetCoinConfig(m, ticker), "parent_coin")) ==>
      r == TokenCheck(true, Field(GetCoinConfig(m, ticker), "parent_coin"))
    ensures !r.isToken ==> r.parent == JNull
    ensures Truthy(GetCoinConfig(m, ticker)) && !Truthy(Field(GetCoinConfig(m, ticker), "parent_coin")) ==>
      var protocolData := GetOr(AsObject(GetCoinConfig(m, ticker)), "protocol", JObj(map[]));
      var kind := if protocolData.JObj? then GetOr(protocolData.fields, "type", JStr("")) else JStr("");
      && (r.isToken <==> protocolData.JObj? && (kind in TokenProtocolTypes || kind == JStr("TENDERMINTTOKEN")))
      && (r.isToken && kind in TokenProtocolTypes ==>
            r.parent == (if Truthy(Platform(protocolData.fields)) then Platform(protocolData.fields) else SuffixParent(ticker)))
      && (r.isToken && kind == JStr("TENDERMINTTOKEN") ==> r.parent == Platform(protocolData.fields))
  {
    var configValue := GetCoinConfig(m, ticker);
    if !Truthy(configValue) then TokenCheck(false, JNull)
    else
      var config := AsObject(configValue);
      var parentCoin := Get(config, "parent_coin");
      if Truthy(parentCoin) then TokenCheck(true, parentCoin)
      else
        var protocolData := GetOr(config, "protocol", JObj(map[]));
        if protocolData.JObj? then
          var kind := GetOr(protocolData.fields, "type", JStr(""));
          if kind in TokenProtocolTypes then
            var platform := Platform(protocolData.fields);
            if Truthy(platform) then TokenCheck(true, platform) else TokenCheck(true, SuffixParent(ticker))
          else if kind == JStr("TENDERMINTTOKEN") then
            TokenCheck(true, Platform(protocolData.fields))
          else TokenCheck(false, JNull)
        else TokenCheck(false, JNull)
  }

  /** `get_all_coins`: the document's keys in file order. */
  function GetAllCoins(m: CoinsConfigManager): (r: seq<string>)
    ensures m.coins.None? ==> r == []
    ensures m.coins.Some? ==>
      && |r| == |m.coins.value|
      && forall i :: 0 <= i < |r| ==> r[i] == m.coins.value[i].0
    ensures m.coins.Some? ==> forall k :: k in r <==> HasKey(m.coins.value, k)
  {
    match m.coins
    case None => []
    case Some(items) =>
      var keys := KeyList(items);
      assert forall k :: k in keys ==> HasKey(items, k) by {
        forall k | k in keys ensures HasKey(items, k) {
          var i :| 0 <= i < |keys| && keys[i] == k;
          assert items[i].0 == k;
        }
      }
      assert forall k :: HasKey(items, k) ==> k in keys by {
        forall k | HasKey(items, k) ensures k in keys {
          var i :| 0 <= i < |items| && items[i].0 == k;
          assert keys[i] == k;
        }
      }
      keys
  }
}
