# Coin activation in pytomicDEX makerbot, modelled in Dafny

This project models the code that makerbot uses to bring coins and tokens up on a Komodo DeFi Framework (KDF) node:

- It finds a coin in `coins_config.json` and reduces its protocol to one family: UTXO, ETH, TENDERMINT, ZHTLC or SIA.
- It picks the servers to connect to: at most three, with cipig/komodo hosts first, and SSL before TCP before other transports.
- It builds the `task::enable_*::init` request of each family, and the synchronous request of a token.
- It sends that request, then polls the task's status method at most 40 times, and records each coin's state in one map shared by all activations.
- It also covers the small helpers and bot-configuration logic around this:
  - from `helpers.py` / `lib_helper.py`: durations, prices, order counts, colours, hyperlinks, centring and generated passwords;
  - from `models.py` / `lib_const.py`: the lookup of activation commands, the table of trading pairs and its updates, the reload of the coin lists, and the counting of swaps.

Modules, in the order they depend on each other:

| module | file | models |
|---|---|---|
| `Wrappers` | wrappers.dfy | `Option` and `Result` |
| `JsonData` | json_data.dfy | JSON values as Python holds them: dict access, `or`, truthiness, `int()`, `str()`, `len()` |
| `Text` | text.dfy | ASCII `upper`/`lower`, `split`, `in` on strings, decimal text, string ordering |
| `CoinsConfig` | coins_config.dfy | `coins_config_manager.py`: `get_coin_config`, `get_protocol_info`, `is_token`, `get_all_coins` |
| `ServerSelection` | server_selection.dfy | the selectors and electrum filters of `ActivationRequestBuilder` |
| `KdfMethod` | kdf_method.dfy | `lib_kdf/kdf_method.py`: `extract_ticker_from_request` |
| `RequestBuilder` | request_builder.dfy | the `build_*` methods, the node normalisers and the in-place `update_*_in_request` methods |
| `ActivationCommand` | activation_command.dfy | `activation.py`: the cached loader, entry lookup, protocol merge and `build_activate_command` |
| `ActivationManager` | activation_manager.dfy | `ActivationManager`: the state map, `_poll_task`, `activate_coin`, `activate_token` |
| `Helpers` | helpers.dfy | the pure helpers and `generate_rpc_pass` |
| `BotConfig` | bot_config.dfy | `get_activation_command`, `activate_bot_coins`, the pair table and its updates, `reload_settings`, swap counting |

How the model is built:

- **JSON values.** They are a datatype. Python's `None` and a missing `dict.get` key are both `JNull`.
- **Key order.** It is kept only where the source depends on it:
  - the loaded `coins_config.json` document;
  - the protocol tables of `ACTIVATE_COMMANDS`;
  - the cached configuration of `activation.py`.

  Those are sequences of key/value pairs. Every other dict is a `map`.
- **Objects with state.** Four source objects change in place, and each is a Dafny `class`:
  - `Rpc` holds the injected `rpc_func` and a log of its calls;
  - `ActivationStore` holds the module-level `ACTIVATION_STATE`;
  - `RequestDocument` holds the request dict that `update_*_in_request` edits;
  - `CoinsConfigLoader` holds the class-level `_cache` that `load` fills (activation.py:14-40).

  Their methods carry `modifies` clauses. They state the new state and the call log as functions of the old ones.
- **The RPC oracle.** `rpc_func` is a function from (call number, method, params) to either a returned value or a raised error. Every call goes into the log.
- **Randomness.** `random.sample`, `random.randint` and `random.shuffle` are nondeterministic choices (`:|`), and the contracts hold for every choice:
  - a sample takes entries from distinct positions of its input;
  - a shuffle is a permutation.
- **Loops.** A loop in the source is a `method` with a `while` loop. Its `ensures` ties the result to a specification function, here called a "spec function". The spec functions are defined element by element, and the lemmas are proved about them.

## Model

| member | source | states |
|---|---|---|
| CoinsConfig.GetCoinConfig | coins_config_manager.py:62-80 | nothing loaded gives None; a truthy value under the exact ticker wins; otherwise the value under the upper-cased ticker; a truthy result is stored under one of those two keys |
| CoinsConfig.GetCoinConfigCaseFallback | coins_config_manager.py:74-80 | when the exact spelling is not stored, a ticker and its upper-cased form find the same entry |
| CoinsConfig.MapProtocolType | coins_config_manager.py:103-113 | UTXO/UTXOSTANDARD give UTXO, ERC20/ETH/ETHEREUM give ETH, TENDERMINT/TENDERMINTTOKEN give TENDERMINT, ZHTLC/ZCOIN give ZHTLC, SIA gives SIA; any other value comes back unchanged |
| CoinsConfig.MapProtocolTypeStable | coins_config_manager.py:103-113 | mapping a family again changes nothing, and a type outside the table passes through |
| CoinsConfig.NoneIfFalsy | coins_config_manager.py:132-140 | `x if x else None`: the result is None or the same truthy value |
| CoinsConfig.GetProtocolInfo | coins_config_manager.py:82-141 | a ticker with no truthy config gives UNKNOWN with every field None; otherwise the family of `protocol.type`; empty server lists become None; contract and confirmation fields are copied as stored |
| CoinsConfig.MissingTypeIsUnknown | coins_config_manager.py:96-101 | a config whose `protocol` is not a dict, or has no `type`, gives UNKNOWN |
| CoinsConfig.SuffixParent | coins_config_manager.py:174-182 | a parent is inferred only for a ticker containing "-", from its last dash suffix, case-sensitively |
| CoinsConfig.IsToken | coins_config_manager.py:143-193 | an unknown ticker gives (False, None); a truthy `parent_coin` decides first; for the nine token types: the platform, else the suffix parent (ERC20→ETH, BEP20→BNB, PLG20→MATIC), else None; TENDERMINTTOKEN gives its platform; every other type gives (False, None) |
| CoinsConfig.GetAllCoins | coins_config_manager.py:195-204 | no config gives []; otherwise the document's keys in file order, each exactly once per entry |
| ServerSelection.FilterSplit | activation_manager.py:75-81 | the priority/regular split loses and invents no entry |
| ServerSelection.FilterHolds | activation_manager.py:75-81 | priority entries pass the host test, regular entries fail it, and both come from the input |
| ServerSelection.PrioritizedPermutes | activation_manager.py:403-412 | `cipig + rest` is a permutation that puts every preferred entry before every other |
| ServerSelection.Sample | activation_manager.py:85-97 | `random.sample(pool, k)` gives `k` entries from distinct positions of the pool |
| ServerSelection.SelectPreferred | activation_manager.py:66-101 | a list that fits is returned unchanged; otherwise exactly `max_count` entries from distinct input positions, preferred ones first; the selection holds min(number preferred, `max_count`) preferred entries, so all of them when they fit and only preferred ones when there are at least `max_count` |
| ServerSelection.PickUpTo | activation_manager.py:85-97 | a pool of at most `k` entries is taken whole; a larger one gives `k` entries from distinct positions of the pool |
| ServerSelection.SelectionFacts | activation_manager.py:85-99 | priority picks followed by regular picks fill `max_count`, come from distinct input positions and keep min(number preferred, `max_count`) preferred entries |
| ServerSelection.SplitByPreference | activation_manager.py:72-81 | the loop builds exactly the preferred and the non-preferred entries, in input order |
| ServerSelection.PreferredFirst | activation_manager.py:85-99 | priority entries followed by regular entries keep preferred entries first |
| ServerSelection.SelectPreferredServers | activation_manager.py:66-105 | `_select_preferred_servers` / `select_preferred_servers` on dicts, with the cipig/komodo test on `url`: the properties of SelectPreferred, including the count of preferred entries kept |
| ServerSelection.SelectPreferredUrls | activation_manager.py:107-130 | `select_preferred_urls`: the same properties, including the count of preferred entries kept, where only a string can be preferred |
| ServerSelection.OfTransportHolds | activation_manager.py:384-399 | a transport bucket holds only dicts with a truthy url, of that transport, taken from the input |
| ServerSelection.Head3 | activation_manager.py:414-420 | `[:3]` is a prefix of at most three entries, and exactly three when there are that many |
| ServerSelection.ElectrumOrderOfFalsy | activation_manager.py:376-377 | a missing or empty server list selects nothing |
| ServerSelection.PrioritizedClass | activation_manager.py:386-412 | a prioritised transport bucket holds only usable input entries of that transport |
| ServerSelection.WssOrderFacts | activation_manager.py:414-415 | in Wasm mode at most three usable WSS input entries, preferred first |
| ServerSelection.NonWssOrderFacts | activation_manager.py:417-420 | otherwise at most three usable non-WSS input entries, ordered SSL, TCP, other, preferred first within a transport |
| ServerSelection.BlocksOrdered | activation_manager.py:418-419 | SSL, TCP and other blocks, each preferred-first, stay ordered by transport and preferred-first within a transport |
| ServerSelection.ElectrumOrderFacts | activation_manager.py:372-420 | at most three usable input entries; non-list input gives []; Wasm mode gives only WSS; otherwise never WSS, and SSL before TCP before the rest; preferred hosts first within a transport |
| ServerSelection.SslFillsResult | activation_manager.py:416-420 | three or more usable SSL servers fill the result with SSL servers only |
| ServerSelection.PrioritizeHosts | activation_manager.py:403-412 | the `prioritize_cipig` loop is the stable partition |
| ServerSelection.BucketByTransport | activation_manager.py:384-401 | the bucketing loop builds one bucket per transport, in input order, dropping non-dicts and url-less entries |
| ServerSelection.FilterElectrumServersWithMode | activation_manager.py:372-420 | `_filter_electrum_servers_with_mode` computes the ordered selection with the cipig/komodo preference |
| ServerSelection.BucketSkippingWss | activation_manager.py:429-446 | the loop of `_filter_electrum_servers` builds the SSL/TCP/other buckets and skips WSS |
| ServerSelection.FilterElectrumServers | activation_manager.py:422-462 | `_filter_electrum_servers` computes the non-Wasm ordered selection with the cipig-only preference |
| ServerSelection.NoPreferenceKeepsOrder | activation_manager.py:403-412 | with nothing preferred, the partition keeps the input order |
| ServerSelection.LimitedElectrumIsUnprioritised | activation.py:189-212 | the UTXO filter of `build_activate_command` is the non-Wasm order with no host preference |
| KdfMethod.MethodTicker | lib_kdf/kdf_method.py:50-57 | a ticker comes from the method name only for `enable_X` with non-empty X that is upper-case or alphabetic, and it is X |
| KdfMethod.ExtractTicker | lib_kdf/kdf_method.py:11-59 | non-dict input gives None |
| KdfMethod.FirstPresent | lib_kdf/kdf_method.py:27-48 | no value exactly when no place holds its key |
| KdfMethod.ExtractTickerPrecedence | lib_kdf/kdf_method.py:26-59 | the first of root ticker, root coin, params.ticker, params.coin, activation_params.ticker, activation_params.coin whose key is present decides, whatever its value; the method name is used only when none is present |
| KdfMethod.FirstPresentIsFirst | lib_kdf/kdf_method.py:27-48 | a later place is used only when every earlier one lacks its key |
| KdfMethod.EnableMethodNamesTicker | lib_kdf/kdf_method.py:51-57 | `{"method": "enable_X"}` names X when X is upper-case or alphabetic |
| RequestBuilder.EthNode | activation_manager.py:317-326 | a dict with a truthy url keeps its url, `ws_url` and `komodo_proxy`; a string becomes `{"url": s}`; anything else is dropped |
| RequestBuilder.TendermintRpcNode | activation_manager.py:334-346 | an `rpc_urls` dict keeps its url and its truthy extra endpoints, and is dropped without a url; a string becomes `{"url": s}` |
| RequestBuilder.UrlOnlyNode | activation_manager.py:349-352 | in the `nodes` fallback, a dict with a url becomes `{"url": ...}` |
| RequestBuilder.NormalizeEthNodes | activation_manager.py:314-327 | `_normalize_eth_nodes` converts the entries as Python iterates the value: a list entry by entry, a string character by character; a falsy value gives no node |
| RequestBuilder.NormalizeTendermintNodes | activation_manager.py:329-354 | `_normalize_tendermint_nodes` converts `rpc_urls` as Python iterates it (entries of a list, characters of a string), and `nodes` the same way only when that yields nothing |
| RequestBuilder.EthNodesShape | activation_manager.py:314-327 | every ETH node is a dict with a url and at most the two extra keys; there are no more nodes than inputs; none exactly when no entry is usable |
| RequestBuilder.EthNodesOfString | activation_manager.py:314-327 | a node list configured as a string gives one node per character, whose url is that character |
| RequestBuilder.TendermintNodesShape | activation_manager.py:329-354 | every node has a url; `rpc_urls` wins whenever one of its entries converts; otherwise the `nodes` fallback |
| RequestBuilder.SelectEthNodes | activation_manager.py:500-505 | no nodes exactly when normalisation yields none; otherwise a preferred selection of at most three |
| RequestBuilder.EthParams | activation_manager.py:493-511 | ticker, history and balances fields; `nodes` only for a non-empty selection; each swap contract only when truthy |
| RequestBuilder.BuildEthActivation | activation_manager.py:491-518 | `task::enable_eth::init`, timeout 60, a task; params as in EthParams for a preferred node selection |
| RequestBuilder.SelectTendermintNodes | activation_manager.py:530-534 | no nodes exactly when normalisation yields none; otherwise a preferred selection of at most three |
| RequestBuilder.TendermintParams | activation_manager.py:522-534 | `tx_history` false, balances on, empty `tokens_params`; `nodes` only for a non-empty selection |
| RequestBuilder.BuildTendermintActivation | activation_manager.py:520-541 | `task::enable_tendermint::init`, timeout 60, a task; params as in TendermintParams |
| RequestBuilder.SiaServerUrl | activation_manager.py:546-552 | the url of a normalised node, or the literal placeholder "Not found for {ticker} in coins_config.json!" |
| RequestBuilder.BuildSiaActivation | activation_manager.py:543-575 | `task::enable_sia::init`, timeout 60, a task; `client_id` 0, empty headers, history on, no HD keys; confirmations default to 3 when falsy |
| RequestBuilder.CollectFirst | activation_manager.py:550-552 | the first normalised node is the conversion of the first entry when that one converts |
| RequestBuilder.SiaUsesFirstNode | activation_manager.py:548-552 | SIA connects to the first configured node when it has a truthy url; without nodes it uses the placeholder |
| RequestBuilder.UtxoFamilyParams | activation_manager.py:582-606 | `activation_params` holds `mode` and, exactly when HD is enabled, `path_to_address {0, 0, "External"}`, `scan_policy`, `gap_limit` 20, `min_addresses_number` 3 and `priv_key_policy` |
| RequestBuilder.BuildUtxoActivation | activation_manager.py:577-613 | `task::enable_utxo::init`, timeout 60, a task; Electrum mode with the filtered servers; HD block exactly when enabled |
| RequestBuilder.Take3 | activation_manager.py:631 | `[:3]` of a list keeps its first three entries |
| RequestBuilder.ZhtlcRpcData | activation_manager.py:617-638 | light wallet servers (first three from the config) only when the protocol has them; `electrum_servers` only when the filter selects any |
| RequestBuilder.NativeRequest | activation_manager.py:640-664 | the UTXO init method in Native mode around the given `rpc_data` |
| RequestBuilder.BuildZhtlcActivation | activation_manager.py:615-664 | `task::enable_utxo::init`, timeout 60, a task; Native mode with ZhtlcRpcData; HD block exactly when enabled |
| RequestBuilder.BuildActivationRequest | activation_manager.py:465-489 | ETH, TENDERMINT, UTXO/ZHTLC and SIA map to their init methods, timeout 60, as tasks; each family gets the request of its own builder: ETH and TENDERMINT the params of a preferred selection of one to three normalised nodes (none exactly when there are no nodes), UTXO, ZHTLC and SIA exactly the request their builders make; any other type is an error naming the type and the ticker; HD keys only for UTXO/ZHTLC with HD enabled |
| RequestBuilder.BuildForFamily | activation_manager.py:478-489 | the dispatch on an already read protocol: the same properties in terms of its family, each family tied to its own builder |
| RequestBuilder.TokenActivationParams | activation_manager.py:699-704 | `required_confirmations` is present exactly when the value converts with `int()`, and then it holds that integer |
| RequestBuilder.BuildTokenActivationRequest | activation_manager.py:669-731 | an error exactly when `is_token` is false; `enable_erc20` exactly for an `-ERC20` suffix (any case), a contract address or an ETH parent, otherwise `enable_tendermint_token`; timeout 30, not a task; returns the parent |
| RequestBuilder.TokenConfirmationsFromText | activation_manager.py:700-704 | a count written as decimal text reaches the request as an integer; a value `int()` rejects is left out |
| RequestBuilder.LowerCaseErc20SuffixIsEvm | activation_manager.py:687-693 | a token spelled with a lower-case `-erc20` suffix still gets `enable_erc20` |
| RequestBuilder.WasmFlagMustBeTrue | activation_manager.py:356-370 | Wasm mode needs a `__wasm` flag that is literally `True`, at the root or in `params` |
| RequestBuilder.NodesSlot | activation_manager.py:147-158 | `params.nodes` is used when present, then root `nodes`; nothing otherwise |
| RequestBuilder.EthSlot | activation_manager.py:274-291 | as NodesSlot, plus the `urls` of a legacy `enable` request |
| RequestBuilder.UtxoSlot | activation_manager.py:177-202 | the servers of `activation_params.mode` or `mode` under a dict `params`; otherwise root `servers` of an `electrum` request or `urls` of an `enable` request |
| RequestBuilder.ZhtlcSlot | activation_manager.py:220-259 | the list under `params.activation_params.mode.rpc_data`, else under `params.mode.rpc_data` |
| RequestBuilder.ZhtlcSlotsIndependent | activation_manager.py:219-259 | replacing the light wallet list leaves the electrum list where it was |
| RequestBuilder.TendermintUpdateNode | activation_manager.py:140-146 | a refreshed node keeps its url and its truthy extra endpoints, and is dropped without a truthy url |
| RequestBuilder.EthUpdateNode | activation_manager.py:268-273 | a refreshed ETH node keeps its url (even a missing one) and its truthy `ws_url` and `komodo_proxy` |
| RequestBuilder.UtxoUpdateServer | activation_manager.py:169-176 | a refreshed server keeps its url, a truthy protocol, and `ws_url` / `disable_cert_verification` when not None |
| RequestBuilder.ZhtlcUpdateServer | activation_manager.py:239-245 | a refreshed ZHTLC server keeps its url, a truthy protocol and a truthy `ws_url` |
| RequestBuilder.RefreshTendermintNodes | activation_manager.py:138-146 | at most three refreshed nodes, converted from a preferred selection of `rpc_urls` |
| RequestBuilder.RefreshEthNodes | activation_manager.py:266-273 | at most three refreshed nodes, converted from a preferred selection of `nodes` |
| RequestBuilder.RefreshUtxoServers | activation_manager.py:166-176 | the mode-dependent electrum selection, converted server by server |
| RequestBuilder.RefreshZhtlcServers | activation_manager.py:237-245 | the mode-dependent electrum selection, converted server by server |
| RequestBuilder.RefreshLightServers | activation_manager.py:209-218 | a preferred url selection of the configured light wallet list (the `_wss` list in Wasm mode); empty exactly when that list is |
| RequestBuilder.RequestDocument.constructor | activation_manager.py:134-135 | wraps the request dict that an update edits in place |
| RequestBuilder.UpdateTendermintNodesInRequest | activation_manager.py:134-159 | True exactly when `rpc_urls` is truthy and a node list exists; then only that list is replaced; False leaves the request unchanged |
| RequestBuilder.UpdateEthNodesInRequest | activation_manager.py:262-291 | True exactly when `nodes` is truthy and a slot exists; the slot receives the nodes, or their urls for `enable`; False leaves the request unchanged |
| RequestBuilder.UpdateUtxoElectrumInRequest | activation_manager.py:161-202 | True exactly when `electrum` is truthy and a slot exists; only that slot changes; False leaves the request unchanged |
| RequestBuilder.UpdateZhtlcInRequest | activation_manager.py:204-260 | the light wallet and electrum lists are replaced independently, each only where it exists; True exactly when either was |
| RequestBuilder.UpdateNodesInRequest | activation_manager.py:293-311 | no ticker, or an unsupported family, gives False and no change; TENDERMINT, UTXO, ZHTLC and ETH each give the truth value and the new request of their own update, as stated for those methods |
| ActivationCommand.NormalizedDistinct | activation.py:25-35 | the normalised map has one entry per key |
| ActivationCommand.NormalizedKeys | activation.py:25-35 | a key is present exactly when some dict entry yields it as `str(ticker or symbol or coin).upper()` |
| ActivationCommand.NormalizedLastWins | activation.py:34 | of entries with the same key, the last one is stored |
| ActivationCommand.NormalizeEntries | activation.py:24-35 | the loop builds the normalised map |
| ActivationCommand.CoinsConfigLoader.constructor | activation.py:14 | the class cache starts with no data |
| ActivationCommand.CoinsConfigLoader.Load | activation.py:16-40 | a non-empty cache is returned without reading; otherwise the file's normalised contents, or {} on any failure, are cached and returned |
| ActivationCommand.FirstNaming | activation.py:47-51 | the first dict value, in order, whose ticker, symbol or coin equals the name; None when there is none |
| ActivationCommand.CoinEntry | activation.py:43-52 | only a dict is ever returned |
| ActivationCommand.FindCoinEntry | activation.py:43-52 | the loop with its early return computes the upper-case key lookup, else the scan |
| ActivationCommand.StrictlySortedDistinct | activation.py:58 | a strictly sorted list has no duplicates |
| ActivationCommand.InsertSorted | activation.py:58 | insertion keeps the list strictly sorted and adds exactly the new key |
| ActivationCommand.SortedUpperKeys | activation.py:58 | sorted, duplicate-free, and exactly the upper-cased keys |
| ActivationCommand.GetAllCoinsFromConfig | activation.py:55-59 | a non-empty cache is kept and an empty one becomes the file's normalised configuration; the result is the sorted distinct upper-cased keys of that cache |
| ActivationCommand.FillIfByKey | activation.py:73-88 | one `setdefault` step changes only a missing key |
| ActivationCommand.MergeTopLevelByKey | activation.py:73-88 | a key the protocol data has keeps its value; a missing one takes the top-level value when its guard holds; `chain_id` from chain_id, then chainId, then chain_registry_name |
| ActivationCommand.ScanLegacyFound | activation.py:98-105 | a found electrum list belongs to a row for the ticker, and no earlier row for it had a list |
| ActivationCommand.ScanLegacyRows | activation.py:98-105 | the scan loop, with its `break`, computes the spec function |
| ActivationCommand.ProtocolFromConfig | activation.py:64-109 | the protocol type of the entry, and its merged protocol data with the legacy fallback |
| ActivationCommand.GetCoinProtocol | activation.py:62-109 | loads through the cache, then gives the entry's type and merged data |
| ActivationCommand.LegacyFillsOnlyMissing | activation.py:90-105 | the legacy file never replaces protocol data the coin already has, and is used only for UTXO (or no type) without electrum |
| ActivationCommand.NormalizeEthNodes | activation.py:112-119 | the `_normalize_eth_nodes` loop converts the value as Python iterates it: a list entry by entry, a string character by character; a falsy value gives no node |
| ActivationCommand.EthNodesOnlyUrl | activation.py:115-118 | every node is `{"url": ...}` and nothing else |
| ActivationCommand.EthNodeOfString | activation.py:117-118 | a string entry becomes a node, even the empty string |
| ActivationCommand.NormalizeTendermintNodes | activation.py:122-144 | the two loops compute the spec function |
| ActivationCommand.TendermintNodesFacts | activation.py:122-144 | every node has a url; `nodes` is consulted only when `rpc_urls` yields nothing |
| ActivationCommand.FilterLimitElectrum | activation.py:189-212 | the loop and `[:3]` compute the unprioritised electrum selection |
| ActivationCommand.CommandMethodIgnoresCase | activation.py:150-187 | the method choice ignores the case of the protocol type |
| ActivationCommand.MissingTypeIsUtxo | activation.py:150-187 | a missing type is activated with the UTXO method |
| ActivationCommand.SwapContractRules | activation.py:163-171 | a list gives its first element as primary and its second as fallback; a string is the primary; an explicit fallback is used only when none was set |
| ActivationCommand.EnvelopeShape | activation.py:230 | `{"mmrpc": "2.0", method, params, "id": 0}` |
| ActivationCommand.EthParamsCommon | activation.py:154-159 | ETH params carry the ticker, history and balances |
| ActivationCommand.TendermintParamsCommon | activation.py:174-178 | Tendermint params carry the ticker, history and balances |
| ActivationCommand.UtxoParamsCommon | activation.py:216-228 | UTXO params carry the ticker, history and balances |
| ActivationCommand.CommandShape | activation.py:147-230 | every command has the envelope and the ticker; "eth" in the type gives the eth method, else "tendermint" or "cosmos" the tendermint one, else the utxo one |
| ActivationCommand.LimitedElectrumFacts | activation.py:189-212 | at most three usable input servers, never WSS, SSL before TCP before the rest |
| ActivationCommand.BuildActivateCommand | activation.py:147-230 | upper-cases the ticker, loads through the cache and returns the command for its protocol |
| ActivationManager.Rpc.constructor | activation_manager.py:737-747 | the injected `rpc_func` answers calls, and no call has been made yet |
| ActivationManager.Rpc.Call | activation_manager.py:737-747 | each call is logged and answered by the oracle for its position |
| ActivationManager.ActivationStore.constructor | activation_manager.py:38 | `ACTIVATION_STATE` starts empty |
| ActivationManager.Manager.constructor | activation_manager.py:737-752 | the manager keeps its config, instance name, RPC function and the shared state map |
| ActivationManager.StateKeyFacts | activation_manager.py:756-758 | keys ignore the case of the ticker, and for colon-free instance names two keys are equal exactly when instance and upper-cased ticker are |
| ActivationManager.InstanceBeforeColon | activation_manager.py:756-758 | the instance name is the text before the first colon of a key |
| ActivationManager.StatusMethodOfEthInit | activation_manager.py:763-764 | the ETH init method polls `task::enable_eth::status` |
| ActivationManager.StatusMethodOfTendermintInit | activation_manager.py:765-766 | the Tendermint init method polls `task::enable_tendermint::status` |
| ActivationManager.StatusMethodOfUtxoInit | activation_manager.py:767-768 | the UTXO init method polls `task::enable_utxo::status` |
| ActivationManager.StatusMethodOfSiaInit | activation_manager.py:769-770 | the SIA init method polls `task::enable_sia::status` |
| ActivationManager.NoStatusMethodWithoutColon | activation_manager.py:771 | a method name without ':' has no status method |
| ActivationManager.StatusMethodForInit | activation_manager.py:760-771 | a status method, when there is one, is one of the four `task::enable_*::status` methods |
| ActivationManager.InitMethodIsCoinMethod | activation_manager.py:763-770 | every family's init method and every status method are among the methods `activate_coin` calls |
| ActivationManager.TokenMethodsNotCoinMethods | activation_manager.py:687-693 | `enable_erc20` and `enable_tendermint_token` are not among the methods `activate_coin` calls, so a parent's activation never sends a token request |
| ActivationManager.TimeoutMessageText | activation_manager.py:833-837 | the timeout message reads "Task polling timed out after 200 seconds" |
| ActivationManager.PollStep | activation_manager.py:780-827 | a raised call changes nothing and continues; a returned one records the raw status; "Ok" or a non-dict `result` ends enabled, "Error" ends failed with its details; any other status continues |
| ActivationManager.EmptyResponseCompletes | activation_manager.py:783-823 | an empty or missing status response ends the polling as enabled |
| ActivationManager.Polled | activation_manager.py:779-830 | at most one call per reply; an unfinished run used every reply and none was decisive; a finished one stopped at the first decisive reply |
| ActivationManager.PolledNext | activation_manager.py:779-830 | one more attempt extends an unfinished run by one step |
| ActivationManager.PolledStable | activation_manager.py:797-823 | once finished, later replies do not matter |
| ActivationManager.PolledError | activation_manager.py:805-814 | an Error status is recorded with its details, "Unknown error" when it has none |
| ActivationManager.StatusCalls | activation_manager.py:782-783 | every status call sends `{"task_id": id, "forget_if_finished": False}` |
| ActivationManager.InstallTwice | activation_manager.py:786-787 | writing a key twice leaves the second value |
| ActivationManager.OtherEntryKept | activation_manager.py:775-787 | a change confined to one key leaves every other entry as it was |
| ActivationManager.InstallOnlyKey | activation_manager.py:786-787 | storing under one key changes only that key |
| ActivationManager.ParentChoice | activation_manager.py:1077 | `parent_override or parent_coin` |
| ActivationManager.Mark | activation_manager.py:798-812 | `update` sets the status and the given field |
| ActivationManager.Manager.GetActivationStatus | activation_manager.py:1129-1132 | the stored entry for the key, else `{"status": "not_started"}` |
| ActivationManager.Manager.PollOnce | activation_manager.py:780-830 | one status call and the entry update of PollStep |
| ActivationManager.Manager.PollAttempt | activation_manager.py:779-830 | the loop invariant advances by one attempt |
| ActivationManager.Manager.PollAttempts | activation_manager.py:779-830 | at most 40 calls, all to the status method, and a stop at the first decisive reply |
| ActivationManager.Manager.PollTask | activation_manager.py:773-838 | at most 40 identical status calls; the entry ends as Polled says, or "timeout" with the 200-second message; only that key changes |
| ActivationManager.Manager.RecordFailure | activation_manager.py:1038-1046 | the except clause replaces the entry with a failure and returns it |
| ActivationManager.Manager.FollowTask | activation_manager.py:944-999 | without a status method the entry is marked failed, the result is the "No status method available for task" failure and no call is made; without waiting the result is success with the task id and the init response; with waiting success exactly when the entry ends enabled; every new call is the status method with the task id, at most 40 of them |
| ActivationManager.Manager.ReadInitResponse | activation_manager.py:931-1036 | a task without a task id fails with "No task ID returned from activation request", is marked failed and makes no call; a task with one and no status method fails the same way with "No status method available for task"; with a status method every new call polls it with that task id, and without waiting the result is success carrying the task id; a synchronous request succeeds exactly for a dict reply with a truthy `result`, keeps the reply as its response and makes no call; with waiting, success exactly when the entry ends enabled |
| ActivationManager.Manager.SendActivation | activation_manager.py:895-1046 | the init request is the next call and only status calls follow it; only the coin's key changes; a raised call records a failure with its message and makes no further call; a `raw_response` that `in` cannot search (not a string, list or dict) records a failure with Python's `TypeError` text; "CoinIsAlreadyActivated" / "is activated already" as a substring of a string, an item of a list or a key of a dict gives `already_enabled` with no further call; any other reply is read as ReadInitResponse states (a task without a task id fails with no call, a synchronous request succeeds exactly for a truthy `result`); with waiting, success exactly when the entry ends enabled |
| ActivationManager.Manager.HandleReply | activation_manager.py:911-1036 | the reply of the init request: a raise records a failure with its message; an unsearchable `raw_response` records the `TypeError` failure; the "already activated" answer records `already_enabled`; in those cases no call follows; any other reply is read as ReadInitResponse states |
| ActivationManager.Manager.BuildAndSend | activation_manager.py:892-1046 | an unsupported family records the builder's failure message and makes no call; for a supported family the request is the one the family's builder gives (its init method, a task), it is sent as the next call, and its reply is handled as SendActivation states |
| ActivationManager.Manager.SendBuilt | activation_manager.py:895-1046 | a request the family's builder gave is sent as the next call, its reply is handled as SendActivation states, only the coin's key changes and every new call is its init method or a status method |
| ActivationManager.Manager.ActivateCoin | activation_manager.py:846-1046 | only the coin's key changes, the earlier calls are kept and every new call is the listing, an init method or a status method; an enabled state returns its stored result with no call and no change; otherwise `get_enabled_coins` is the first call; a raised listing, or a listing with a non-string dict ticker, records a failure with its message after that one call; a listing that names the ticker gives `already_enabled` after that one call; otherwise, after the listing, an unsupported family records the builder's failure with no further call, and a supported one has its built request sent as the second call and its reply handled as SendActivation states; with waiting, success exactly when the state ends enabled |
| ActivationManager.Manager.ListAndActivate | activation_manager.py:872-1046 | `get_enabled_coins` is the first call and every later one is an init or status method; a raised listing or a listing fault records a failure after that call; a listed ticker stops with `already_enabled` after that call; otherwise the build-and-send step follows as BuildAndSend states, from the call after the listing |
| ActivationManager.Manager.AfterListing | activation_manager.py:875-1046 | a raised listing records a failure with its message; a dict entry whose ticker is not a string records a failure with the `AttributeError` text of `upper`; a listed ticker, compared upper-cased, gives `already_enabled`; in those three cases no further call is made; otherwise an unsupported family records the builder's failure with no call, and a supported one has its built request sent as the next call and its reply handled as SendActivation states |
| ActivationManager.Manager.AfterValidListing | activation_manager.py:879-1046 | a listing that names the ticker, compared upper-cased, records `already_enabled` with no call; otherwise an unsupported family records the builder's failure with no call, and a supported one has its built request sent as the next call and its reply handled as SendActivation states |
| ActivationManager.ListingFault | activation_manager.py:878 | no fault exactly when every dict entry of the listing has a string ticker; otherwise the `AttributeError` text for the type of a non-string one |
| ActivationManager.MarkerFault | activation_manager.py:914-917 | a fault exactly when the error reply's `raw_response` is not a string, list or dict, and then the reply is never read as "already activated" |
| ActivationManager.Manager.SendTokenRequest | activation_manager.py:1090-1127 | the token request is the one call made; success exactly for a dict response with truthy `result`, otherwise "Token activation request failed"; the entry becomes the in-progress entry marked enabled or failed with the response; a raised call records a failure; only the token's key changes |
| ActivationManager.Manager.ActivateToken | activation_manager.py:1048-1127 | an enabled state returns with no call; a non-token fails with no call; otherwise a truthy parent is activated first, as ActivateCoin states with waiting, and none of its calls is the token request; a failed parent ends the run with the calls and entries it left; otherwise the token request is the one call after the parent's, and its outcome decides the result |
| ActivationManager.Manager.EnableParentThenToken | activation_manager.py:1077-1117 | a parent is activated exactly when it is truthy, with the contract of ActivateCoin; its failure returns with the calls and entries it left and the "Failed to enable parent coin" message; otherwise the token request is the one call after the parent's, as SendTokenRequest states |
| Helpers.HmsDecomposition | helpers.py:15-17 | `h·3600 + m·60 + s = sec` with `0 <= m, s < 60` (also lib_helper.py:5-7) |
| Helpers.Shown | helpers.py:19 | exactly the non-zero parts, in order, each as its integer text followed by its unit; no shown part is empty, and nothing is shown exactly when every part is zero |
| Helpers.NonZero | helpers.py:19 | the kept periods are exactly those with a non-zero value |
| Helpers.SecToHmsEmpty | helpers.py:15-19 | the text is empty exactly for 0 seconds (also lib_helper.py:5-9) |
| Helpers.SecondsOnly | helpers.py:15-19 | under a minute only the seconds are shown |
| Helpers.WholeHours | helpers.py:15-19 | a whole number of hours shows the hours alone |
| Helpers.GetPrice | helpers.py:34-42 | a coin missing from the prices gives 0; the prices passed in are used when truthy, else the fetched ones (also lib_helper.py:26-34) |
| Helpers.PriceIgnoresSuffix | helpers.py:37-38 | `X-SUFFIX` is priced as `X` |
| Helpers.PrefixBeforeDash | helpers.py:37-38 | the lookup key is the text before the first "-" |
| Helpers.OrderCount | helpers.py:159-173 | maker and taker orders are read from `result` when the reply has it, and from the top level otherwise; count = len(maker) + len(taker) |
| Helpers.OrderCountNested | lib_helper.py:111-122 | maker and taker orders are read from `result` when the reply has it; without it both are empty and the count is 0; count = len(maker) + len(taker) |
| Helpers.OrderCountVersions | lib_helper.py:114-121 | with `result` the two versions agree; without it the `lib_helper` one gives empty collections and 0 |
| Helpers.ColorizeWraps | helpers.py:176-200 | an unknown colour gives `str(s)`; a known one gives its code, `str(s)` and the reset code (also lib_const.py:18-42) |
| Helpers.HyperlinkParts | helpers.py:261-267 | the result is `ESC]8;;url ESC\` + label + `ESC]8;; ESC\`, and url and label can be read back |
| Helpers.CenterVisibleFacts | helpers.py:281-289 | a visible length at least the width returns the text; otherwise left and right padding differ by at most one (right gets the extra) and make the visible width exact |
| Helpers.QuarterBounds | helpers.py:241 | `int(length / 4)` is 0 for lengths 1..3, at least 1 from 4, at most 9 below 40 |
| Helpers.SampleChars | helpers.py:244-250 | a sample larger than its alphabet raises; otherwise `k` characters from distinct positions |
| Helpers.SampleMembers | helpers.py:244-250 | a sample's characters come from its alphabet |
| Helpers.PermutationKeepsChars | helpers.py:251-253 | a shuffle keeps which characters occur |
| Helpers.RoundFacts | helpers.py:243-250 | a round holds every class and only password characters |
| Helpers.DrawClass | helpers.py:244 | a draw is non-empty and from its alphabet, or raises because the sample is too large, and never for `quart` up to the alphabet's size |
| Helpers.PassRound | helpers.py:243-250 | one round gives at least four characters of every class, or raises; it never raises for `quart <= 9` |
| Helpers.AppendKeepsClasses | helpers.py:242-250 | appending a round keeps every class and only password characters |
| Helpers.GenerateRpcPass | helpers.py:238-253 | length <= 0 gives ""; 1..3 raises (empty `randint` range); 4..39 succeeds; a password is at least as long as asked, has every class and only their characters; larger lengths can raise only from an oversized sample (also lib_const.py:66-77) |
| BotConfig.FirstTable | lib_helper.py:12-15 | the first table index holding the coin |
| BotConfig.FirstActivationCommand | lib_helper.py:12-15 | None exactly when no table holds the coin; otherwise the entry of the first table that does |
| BotConfig.LastTable | models.py:129-134 | the last table index holding the coin |
| BotConfig.LastActivationCommand | models.py:129-134 | None exactly when no table holds the coin; otherwise the entry of the last table that does |
| BotConfig.ActivationCommandsAgree | models.py:129-134 | when at most one table holds the coin, both lookups agree (lib_helper.py:12-15) |
| BotConfig.ActivationCommandsDiffer | models.py:129-134 | a coin in two tables gets different answers from the two lookups (lib_helper.py:12-15) |
| BotConfig.CoinsToActivate | models.py:319-328 | `(buy ∪ sell) − enabled`, with the listed coins when none are passed; nothing happens when the set is empty |
| BotConfig.GetConfigKeys | models.py:888-910 | the config has exactly the template keys plus `min_volume`, `max_volume` and `spread` (also lib_const.py:80-105) |
| BotConfig.GetConfigValues | models.py:888-910 | base and rel are overridden, the volumes and spread come from the terms, the other template fields are kept |
| BotConfig.PairKeySameBase | models.py:761 | with the same base, equal keys mean equal rels |
| BotConfig.PairKeySameRel | models.py:761 | with the same rel, equal keys mean equal bases |
| BotConfig.FirstSlash | models.py:761 | the first "/" of a key sits right after a "/"-free base |
| BotConfig.PairKeyInjective | models.py:761 | for "/"-free bases, a key names its pair |
| BotConfig.RowTargetsMembers | models.py:926-929 | row targets are `base/rel` for each rel other than base |
| BotConfig.ColumnTargetsMembers | models.py:933-936 | column targets are `base/rel` for each base other than rel |
| BotConfig.AddRowFacts | models.py:926-929 | a row adds exactly its targets, each holding its pair's config; other keys are unchanged |
| BotConfig.AddColumnFacts | models.py:933-936 | a column adds exactly its targets, each holding its pair's config; other keys are unchanged |
| BotConfig.FillRow | models.py:757-765 | the inner loop computes AddRow |
| BotConfig.FillColumn | models.py:933-936 | the `side == "rel"` loop computes AddColumn |
| BotConfig.PairConfigsKeys | models.py:755-767 | the table's keys are PairKeys |
| BotConfig.PairKeysMembers | models.py:755-767 | the keys are exactly `base/rel` for base in sell, rel in buy, base ≠ rel (also lib_const.py:121-131) |
| BotConfig.PairConfigsValue | models.py:755-767 | a pair of the table holds its own config |
| BotConfig.PairConfigsValues | models.py:755-767 | every pair of the table holds its own config |
| BotConfig.RowTargetsCount | models.py:757-758 | a duplicate-free row has one key per rel, minus one when it contains the base |
| BotConfig.RowDisjoint | models.py:756-765 | rows of different bases share no key |
| BotConfig.SharedStep | models.py:756 | a new sell coin adds one shared coin exactly when it is a buy coin |
| BotConfig.PairKeysCount | models.py:755-767 | for duplicate-free lists, the table has `|sell|·|buy| − |sell ∩ buy|` keys |
| BotConfig.CreateBotParams | models.py:745-767 | the params hold the price url, the integer refresh rate and the pair table (also lib_const.py:108-131) |
| BotConfig.UpdatePairParams | models.py:912-918 | no `cfg` table is an error; otherwise only `base/rel` changes, to its new config (also lib_const.py:137-146) |
| BotConfig.UpdatedCfgFacts | models.py:920-936 | side "base" rewrites `coin/rel` for each buy coin ≠ coin; side "rel" rewrites `base/coin` for each sell coin ≠ coin; other sides and other keys are unchanged |
| BotConfig.UpdateRow | models.py:924-929 | the base loop gives AddRow; without a table it fails exactly when there is a target |
| BotConfig.UpdateColumn | models.py:931-936 | the rel loop gives AddColumn; without a table it fails exactly when there is a target |
| BotConfig.UpdateCoinParams | models.py:920-939 | with a table, only the targeted keys change; without one, it fails exactly when there is a target (also lib_const.py:149-173) |
| BotConfig.AppendIfAbsentFacts | models.py:977-986 | existing order is kept, the coin ends up present, and no duplicate is added |
| BotConfig.ReloadSettingsFacts | models.py:974-986 | both lists keep their order, gain only the given coins, and stay duplicate-free |
| BotConfig.ReloadSettingsLosesPair | models.py:974-986 | as written, updating DOGE/KMD with buy [KMD] and sell [LTC] leaves DOGE/KMD out of the regenerated table |
| BotConfig.ReloadSettingsIntendedAddsPair | models.py:941-949 | with the base added to the sell coins and the rel to the buy coins, the updated pair is in the regenerated table |
| BotConfig.CountsAdd | models.py:205-217 | the counts of a list are the sums of those of its parts |
| BotConfig.CountsOfOneSwap | models.py:206-217 | a failed swap adds 1 to the failed count and nothing to the successful one; any other swap adds its "Finished" events |
| BotConfig.CountBounds | models.py:205-212 | at most one failure per swap; a list of failed swaps counts no successes |
| BotConfig.HasErrorEvent | models.py:208-212 | the loop with `break` finds an error event exactly when there is one |
| BotConfig.CountFinished | models.py:215-217 | the loop counts the "Finished" events |
| BotConfig.CountSwaps | models.py:205-217 | the loops compute the successful and failed counts |
| JsonData.IntCoerce | activation_manager.py:700-704 | `int()` of an int is that int, of `True` 1 and of `False` 0; None (where Python raises `TypeError`) for None, a list or a dict; text is read as decimal digits, where non-ASCII digits give None |
| JsonData.IntCoerceOfDecimalText | activation_manager.py:702 | `int()` on the text of an integer gives that integer |
| Text.ParseIntSkipsSpace | activation_manager.py:700-704 | `int()` strips any leading Python white space before an integer's text, such as a no-break space (U+00A0) or a file separator (U+001C), and reads the integer |
| JsonData.Iterated | activation.py:114 | a loop over a list visits its entries, over a string its characters as one-character strings, and over anything else (a falsy value under `or []`) nothing |
| JsonData.IteratedFalsy | activation.py:114 | a falsy value is iterated as nothing |
| JsonData.CollectKeepsAll | activation_manager.py:314-327 | when every entry converts, the conversion keeps the length and converts entry by entry |

## Left out

- Ill-typed values are read by one rule, where the source would raise `AttributeError` or `TypeError`: a value that is not a dict is read as `{}`, and one that is not a list as `[]`. This applies wherever the source calls `.get` on a value it has not checked. It also covers `orders["result"]` in `get_order_count` and the scalar a cached configuration or a legacy row may hold.
- `str()` is exact for strings, integers, booleans and None. For a list or a dict it is `""` here, where Python gives the value's repr. So `Colorize` (and `error_print` of a dict reply, models.py:125), the "Activation failed with status: " text and the unsupported-protocol message show nothing where the source shows that repr.
- Timestamps (`last_started`, `completed_at`, `failed_at`, the cache's `ts`), `time.sleep` and all logging are not modelled. They are not read back by the code modelled here.
- The poll thread is one synchronous call of the poll loop, and no other thread races on `ACTIVATION_STATE`. With waiting, the source joins the thread with a 300-second timeout, and the model takes the loop to have ended by then. Without waiting, the source's `activate_coin` returns while the thread still runs. The model has finished polling before it returns, so a caller sees the final entry at once.
- `userpass` and the unused `request_params` dict of `activate_coin` are not modelled, because they never reach `rpc_func`.
- A tuple response to the init request is not modelled, because the RPC oracle returns JSON values only.
- A `KeyError` inside `_poll_task` is not modelled. It happens when every status call raises and there is no entry to mark as timed out. The entry is then left as it was (`TimedOut` of no entry).
- The branch of `activate_coin` for a task init method without a status method is modelled (`FollowTask`). No request the builder produces reaches it (`StatusMethodOf*Init`).
- Unicode case mapping is not modelled: `upper()` and `lower()` map ASCII letters only. `isupper()` and `isalpha()` are modelled on ASCII.
- Floating point is not modelled. `float(min_usd)`, `float(max_usd)`, `round(spread, 4)`, `float(last_price)` and the value delta of `get_recent_swaps_info` are opaque JSON values passed in.
- File and network I/O become parameters:
  - the read of `coins_config.json` (`ConfigFile`) and of the legacy `coins` file (`legacy`);
  - `load_params`, `load_settings` and the `json.dump` writes (the params and lists themselves);
  - `PRICES_URL` / `PRICES_API`;
  - the price fetch of `get_price` (`fetched`);
  - `strip_ansi_sequences` inside `center_visible` (`strip`).
- `setdefault` in `get_coin_protocol` also changes the cached `protocol_data` that the configuration shares. The model returns the merged copy and leaves the cache as loaded, so this aliasing is not captured.
- A missing `buy_coins` / `sell_coins` key (a `KeyError` in `Config`) is not modelled, because the lists are inputs.
- The JSON navigation of `get_recent_swaps_info` (`result.swaps`, `events`, `event.type`) is not modelled. Each swap is the sequence of its event types.
- The per-coin sent/received sums and the value delta are not modelled, because they are floating point.
- `activate_coins` is external to this model. `CoinsToActivate` gives the set of coins it is called with, not an order of activation.
- `BotConfig.PairKeyInjective`, `BotConfig.PairConfigsValue`, `BotConfig.PairConfigsValues` and `BotConfig.PairKeysCount` require sell coins without "/". With a "/" in a coin name, two pairs can share a key, and the source then keeps only the later config.
- `BotConfig.PairKeysCount` also requires duplicate-free coin lists, as the settings normally hold.
- SecToHms: `sec` is a whole number of seconds here. Its callers pass `int(time.time()) - int(updated) / 1000` (models.py:622, lib_atomicdex.py:234), a float under Python's true division. `divmod` then gives float parts, `int(val)` truncates each, and a seconds part between 0 and 1 is still shown. So 3600.5 gives "1h 0s" where `SecToHms(3600)` gives "1h", and 0.5 gives "0s" where `SecToHms(0)` gives "". Floating point is not modelled.
- GetPrice: `current_prices[coin]["last_price"]` (helpers.py:40, lib_helper.py:32) raises `KeyError` for a price entry without `last_price`, and `TypeError` for an entry that is not a dict. `float()` raises for a None or non-numeric value. The model returns the field as read, which is `JNull` in these cases, and does not model the raise.
- IntCoerce: Python's `int()` also reads text written in non-ASCII decimal digits (Arabic-Indic, fullwidth and the other Unicode `Nd` digits). The model reads only ASCII `0`-`9` and gives None for such text. White space is the set `str.isspace` accepts.
- SendActivation: the "already activated" test searches `raw_response` as Python's `in` does for a string (substring), a list (item) or a dict (key), and any other value records a failure with `TypeError` text. That text follows CPython up to 3.13 ("argument of type 'int' is not iterable"); later versions word it differently.
- NormalizeEthNodes (`RequestBuilder` and `ActivationCommand`) and NormalizeTendermintNodes: a dict configured in place of a node list is iterated by the source over its keys, in insertion order, and each key string becomes a node. The model iterates a dict as nothing, because a `map` has no key order. A truthy value that cannot be iterated at all (an integer or `True`) raises `TypeError` in the source; the model gives no node.
- RefreshEthNodes, RefreshTendermintNodes, UpdateEthNodesInRequest and UpdateTendermintNodesInRequest: a truthy configured node list that is not a list raises in the source: `AttributeError` on `.get` of a character or a key for a string or a dict, `TypeError` on `len` for a number. The model selects from it as from an empty list.
- UpdateNodesInRequest: a truthy ticker that is not a string makes the configuration lookup raise once a configuration is loaded (an unhashable key, or `upper` on a non-string, coins_config_manager.py:74-80). The model returns False and leaves the request unchanged.
- ExtractTicker: a truthy `method` that is not a string raises `AttributeError` on `startswith` (lib_kdf/kdf_method.py:54). The model gives None.
- SelectPreferredServers: the preference test lower-cases the server's url, which raises `AttributeError` for a url that is None or not a string (activation_manager.py:77). The model reads such a url through `str()`, whose text never names a cipig or komodo host, so the server is not preferred. `select_preferred_urls` checks for a string first, and the model follows it.

## Findings

| source | as written | input that shows it | evidently intended | confidence | as-written member | corrected member |
|---|---|---|---|---|---|---|
| models.py:974-986 | `reload_settings(base, rel)` appends `base` to `buy_coins` and `rel` to `sell_coins`. Its callers pass the coin being sold as `base` (models.py:941-949, 952-961), and `create_bot_params` takes bases from `sell_coins`, so the pair being updated is missing from a table regenerated from the settings | buy coins [KMD], sell coins [LTC], update pair DOGE/KMD: the lists become buy [KMD, DOGE], sell [LTC, KMD], which yields LTC/KMD, LTC/DOGE and KMD/DOGE but not DOGE/KMD | append `base` to `sell_coins` and `rel` to `buy_coins` | medium, not executed | BotConfig.ReloadSettings / BotConfig.ReloadSettingsLosesPair | BotConfig.ReloadSettingsIntended / BotConfig.ReloadSettingsIntendedAddsPair |
