/**
 * `activation.py`: the older stand-alone builder of KDF activation commands
 * from a local `coins_config.json`, with its cached loader, the merge of an
 * entry's top-level fields into its protocol data, the node normalisers and
 * the electrum filter.
 */
module ActivationCommand {
  import opened Wrappers
  import opened Text
  import opened JsonData
  import opened ServerSelection
  import RequestBuilder

  // ------------------------------------------------------------- the loader

  /** What reading `coins_config.json` yields: no file, a read or parse
      error, a list of entries, an object (its items in file order), or some
      other JSON value. */
  datatype ConfigFile = Missing | Unreadable | ListFile(entries: seq<Json>) | ObjectFile(items: Items) | OtherFile(value: Json)

  /** The key a list entry is stored under: the first truthy one of its
      ticker, symbol and coin, as text and upper-cased; none when all three
      are falsy. */
  function EntryKey(entry: Json): Option<string>
  {
    if !entry.JObj? then None
    else
      var t := Or(Or(Get(entry.fields, "ticker"), Get(entry.fields, "symbol")), Get(entry.fields, "coin"));
      if Truthy(t) then Some(Upper(PyStr(t))) else None
  }

  /** The object the normalising loop has built from `entries`. */
  function Normalized(entries: seq<Json>): Items
  {
    if entries == [] then []
    else
      var prev := Normalized(entries[..|entries| - 1]);
      var e := entries[|entries| - 1];
      match EntryKey(e)
      case Some(k) => Put(prev, k, e)
      case None => prev
  }

  /** The configuration a file holds, once normalised. */
  function FileConfig(file: ConfigFile): Items
  {
    match file
    case ListFile(entries) => Normalized(entries)
    case ObjectFile(items) => items
    case _ => []
  }

  /** The normalised object has one entry per key. */
  lemma {:induction false} NormalizedDistinct(entries: seq<Json>)
    ensures DistinctKeys(Normalized(entries))
  {
    if entries != [] {
      var init := entries[..|entries| - 1];
      NormalizedDistinct(init);
      if EntryKey(entries[|entries| - 1]).Some? {
        PutDistinct(Normalized(init), EntryKey(entries[|entries| - 1]).value, entries[|entries| - 1]);
      }
    }
  }

  /** A key is present exactly when some list entry carries it; entries
      without a key are dropped. */
  lemma {:induction false} NormalizedKeys(entries: seq<Json>, k: string)
    ensures HasKey(Normalized(entries), k) <==> exists i :: 0 <= i < |entries| && EntryKey(entries[i]) == Some(k)
  {
    if entries != [] {
      var init := entries[..|entries| - 1];
      var e := entries[|entries| - 1];
      NormalizedKeys(init, k);
      if EntryKey(e).Some? {
        PutKeys(Normalized(init), EntryKey(e).value, e, k);
      }
      if exists i :: 0 <= i < |entries| && EntryKey(entries[i]) == Some(k) {
        var i :| 0 <= i < |entries| && EntryKey(entries[i]) == Some(k);
        if i < |init| {
          assert init[i] == entries[i];
        }
      }
      forall i | 0 <= i < |init| ensures init[i] == entries[i] {
      }
    }
  }

  /** A later entry with the same key overwrites an earlier one: the value
      stored is the last entry carrying the key. */
  lemma {:induction false} NormalizedLastWins(entries: seq<Json>, i: nat)
    requires i < |entries| && EntryKey(entries[i]).Some?
    requires forall j :: i < j < |entries| ==> EntryKey(entries[j]) != EntryKey(entries[i])
    ensures Lookup(Normalized(entries), EntryKey(entries[i]).value) == entries[i]
  {
    var k := EntryKey(entries[i]).value;
    var init := entries[..|entries| - 1];
    var e := entries[|entries| - 1];
    if i == |entries| - 1 {
      PutLookup(Normalized(init), k, e, k);
    } else {
      NormalizedLastWins(init, i);
      if EntryKey(e).Some? {
        PutLookup(Normalized(init), EntryKey(e).value, e, k);
      }
    }
  }

  /** The normalising loop of `CoinsConfigLoader.load`. */
  method NormalizeEntries(entries: seq<Json>) returns (norm: Items)
    ensures norm == Normalized(entries)
  {
    norm := [];
    var i := 0;
    while i < |entries|
      invariant 0 <= i <= |entries|
      invariant norm == Normalized(entries[..i])
    {
      assert entries[..i + 1][..i] == entries[..i];
      var t := EntryKey(entries[i]);
      if t.Some? {
        norm := Put(norm, t.value, entries[i]);
      }
      i := i + 1;
    }
    assert entries[..i] == entries;
  }

  /** `CoinsConfigLoader`: the class-level cache of the loaded configuration.
      An empty cache counts as nothing cached, since the source checks the cache
      for truthiness. */
  class CoinsConfigLoader {
    var cache: Items

    constructor()
      ensures cache == []
    {
      cache := [];
    }

    /** `load`: a non-empty cache is returned without reading the file;
        otherwise the file is read and what it holds (nothing for a missing
        or unreadable file) is cached and returned. */
    method Load(file: ConfigFile) returns (cfg: Items)
      modifies this
      ensures old(cache) != [] ==> cfg == old(cache)
      ensures old(cache) == [] ==> cfg == FileConfig(file)
      ensures cache == cfg
    {
      if cache != [] {
        return cache;
      }
      match file {
        case ListFile(entries) =>
          cfg := NormalizeEntries(entries);
        case ObjectFile(items) =>
          cfg := items;
        case _ =>
          cfg := [];
      }
      cache := cfg;
    }
  }

  // ---------------------------------------------------- finding an entry

  /** A dict whose `ticker`, `symbol` or `coin` is `t`. */
  predicate Names(val: Json, t: string)
  {
    val.JObj? &&
    (Get(val.fields, "ticker") == JStr(t) || Get(val.fields, "symbol") == JStr(t) || Get(val.fields, "coin") == JStr(t))
  }

  /** The first value of `cfg`, in order, that names `t`. */
  function FirstNaming(cfg: Items, t: string): (r: Option<Json>)
    ensures r.None? <==> forall i :: 0 <= i < |cfg| ==> !Names(cfg[i].1, t)
    ensures r.Some? ==> exists i :: 0 <= i < |cfg| && cfg[i].1 == r.value && Names(cfg[i].1, t) &&
                                    forall j :: 0 <= j < i ==> !Names(cfg[j].1, t)
  {
    if cfg == [] then None
    else if Names(cfg[0].1, t) then Some(cfg[0].1)
    else
      var r := FirstNaming(cfg[1..], t);
      assert forall i :: 1 <= i < |cfg| ==> cfg[i] == cfg[1..][i - 1];
      if r.Some? then
        var i :| 0 <= i < |cfg[1..]| && cfg[1..][i].1 == r.value && Names(cfg[1..][i].1, t) &&
                 forall j :: 0 <= j < i ==> !Names(cfg[1..][j].1, t);
        assert cfg[i + 1].1 == r.value && forall j :: 0 <= j < i + 1 ==> !Names(cfg[j].1, t);
        r
      else r
  }

  /** `_find_coin_entry`: the dict stored under the upper-cased ticker, else
      the first dict naming it. */
  function CoinEntry(cfg: Items, ticker: string): (r: Option<Json>)
    ensures r.Some? ==> r.value.JObj?
  {
    var t := Upper(ticker);
    if HasKey(cfg, t) && Lookup(cfg, t).JObj? then Some(Lookup(cfg, t)) else FirstNaming(cfg, t)
  }

  /** The scan of `_find_coin_entry`, a loop with an early return. */
  method FindCoinEntry(cfg: Items, ticker: string) returns (r: Option<Json>)
    ensures r == CoinEntry(cfg, ticker)
  {
    var t := Upper(ticker);
    if HasKey(cfg, t) && Lookup(cfg, t).JObj? {
      return Some(Lookup(cfg, t));
    }
    var i := 0;
    while i < |cfg|
      invariant 0 <= i <= |cfg|
      invariant FirstNaming(cfg[i..], t) == FirstNaming(cfg, t)
    {
      assert cfg[i..][1..] == cfg[i + 1..];
      if Names(cfg[i].1, t) {
        return Some(cfg[i].1);
      }
      i := i + 1;
    }
    return None;
  }

  // ------------------------------------------------------------ all coins

  /** Strictly increasing, neighbour by neighbour. */
  predicate StrictlySorted(s: seq<string>)
  {
    forall i :: 0 <= i < |s| - 1 ==> LexLess(s[i], s[i + 1])
  }

  /** A strictly sorted list has no duplicates. */
  lemma {:induction false} StrictlySortedDistinct(s: seq<string>, i: nat, j: nat)
    requires StrictlySorted(s) && i < j < |s|
    ensures LexLess(s[i], s[j]) && s[i] != s[j]
    decreases j - i
  {
    if j == i + 1 {
    } else {
      StrictlySortedDistinct(s, i + 1, j);
      LexTransitive(s[i], s[i + 1], s[j]);
    }
    if s[i] == s[j] {
      LexIrreflexive(s[i]);
    }
  }

  /** Insert a string into a strictly sorted list, unless it is there. */
  function InsertSorted(s: seq<string>, x: string): (r: seq<string>)
    requires StrictlySorted(s)
    ensures StrictlySorted(r)
    ensures forall y :: y in r <==> y in s || y == x
    ensures r != [] && (r[0] == x || (s != [] && r[0] == s[0]))
  {
    if s == [] then [x]
    else if x == s[0] then s
    else if LexLess(x, s[0]) then [x] + s
    else
      LexTotal(x, s[0]);
      var rest := InsertSorted(s[1..], x);
      assert forall y :: y in s <==> y == s[0] || y in s[1..] by {
        assert s == [s[0]] + s[1..];
      }
      [s[0]] + rest
  }

  /** The distinct upper-cased keys of the configuration, sorted. */
  method SortedUpperKeys(cfg: Items) returns (r: seq<string>)
    ensures StrictlySorted(r)
    ensures forall k :: k in r <==> exists i :: 0 <= i < |cfg| && Upper(cfg[i].0) == k
  {
    r := [];
    var i := 0;
    while i < |cfg|
      invariant 0 <= i <= |cfg|
      invariant StrictlySorted(r)
      invariant forall k :: k in r <==> exists j :: 0 <= j < i && Upper(cfg[j].0) == k
    {
      r := InsertSorted(r, Upper(cfg[i].0));
      i := i + 1;
    }
  }

  /** `get_all_coins_from_config` */
  method GetAllCoinsFromConfig(loader: CoinsConfigLoader, file: ConfigFile) returns (r: seq<string>)
    modifies loader
    ensures old(loader.cache) != [] ==> loader.cache == old(loader.cache)
    ensures old(loader.cache) == [] ==> loader.cache == FileConfig(file)
    ensures StrictlySorted(r)
    ensures forall k :: k in r <==> exists i :: 0 <= i < |loader.cache| && Upper(loader.cache[i].0) == k
  {
    var cfg := loader.Load(file);
    r := SortedUpperKeys(cfg);
  }

  // -------------------------------------------------------- protocol data

  /** The entry's `protocol`, or an empty dict when it is falsy. */
  function ProtocolOf(entry: Object): Json
  {
    Or(Get(entry, "protocol"), JObj(map[]))
  }

  /** The protocol's `type` when the protocol is a dict, `None` otherwise. */
  function EntryProtocolType(entry: Object): Json
  {
    var p := ProtocolOf(entry);
    if p.JObj? then Get(p.fields, "type") else JNull
  }

  /** The protocol's `protocol_data` when the protocol is a dict and that
      value is truthy; an empty dict otherwise. */
  function EntryProtocolData(entry: Object): Object
  {
    var p := ProtocolOf(entry);
    if p.JObj? then AsObject(Get(p.fields, "protocol_data")) else map[]
  }

  /** `setdefault`: `k` is set to `v` only when it is missing. */
  function SetDefault(d: Object, k: string, v: Json): Object
  {
    if k in d then d else d[k := v]
  }

  /** The first truthy one of an entry's `chain_id`, `chainId` and
      `chain_registry_name`, the last of them when none is. */
  function ChainIdOf(entry: Object): Json
  {
    Or(Or(Get(entry, "chain_id"), Get(entry, "chainId")), Get(entry, "chain_registry_name"))
  }

  /** A `setdefault` made only when `cond` holds. */
  function FillIf(d: Object, cond: bool, k: string, v: Json): Object
  {
    if cond then SetDefault(d, k, v) else d
  }

  /** One `setdefault` step, key by key. */
  lemma FillIfByKey(d: Object, cond: bool, k0: string, v: Json, k: string)
    ensures var r := FillIf(d, cond, k0, v);
      && (k in d ==> k in r && r[k] == d[k])
      && (k !in d && k != k0 ==> k !in r)
      && (k !in d && k == k0 ==> (k in r <==> cond) && (cond ==> r[k] == v))
  {
  }

  /** The fields `get_coin_protocol` copies from the top level of an entry into
      its protocol data, one `setdefault` after another. */
  function MergeTopLevel(entry: Object, pdata: Object): Object
  {
    var d1 := FillIf(pdata, Get(entry, "nodes").JArr?, "nodes", Get(entry, "nodes"));
    var d2 := FillIf(d1, Get(entry, "electrum").JArr?, "electrum", Get(entry, "electrum"));
    var d3 := FillIf(d2, Get(entry, "rpc_urls").JArr?, "rpc_urls", Get(entry, "rpc_urls"));
    var d4 := FillIf(d3, Truthy(Get(entry, "swap_contract_address")), "swap_contract_address",
                     Get(entry, "swap_contract_address"));
    var d5 := FillIf(d4, Truthy(Get(entry, "fallback_swap_contract")), "fallback_swap_contract",
                     Get(entry, "fallback_swap_contract"));
    var d6 := FillIf(d5, Truthy(ChainIdOf(entry)), "chain_id", ChainIdOf(entry));
    FillIf(d6, Truthy(Get(entry, "denom")), "denom", Get(entry, "denom"))
  }

  /** What the top level of an entry offers for one protocol-data key: the
      lists for the server keys, the truthy values for the others, with
      `chain_id` taken from chain_id, then chainId, then chain_registry_name. */
  function TopLevelValue(entry: Object, k: string): Option<Json>
  {
    if k == "nodes" || k == "electrum" || k == "rpc_urls" then
      (if Get(entry, k).JArr? then Some(Get(entry, k)) else None)
    else if k == "swap_contract_address" || k == "fallback_swap_contract" || k == "denom" then
      (if Truthy(Get(entry, k)) then Some(Get(entry, k)) else None)
    else if k == "chain_id" then
      (if Truthy(ChainIdOf(entry)) then Some(ChainIdOf(entry)) else None)
    else None
  }

  /** The merge, key by key: a key the protocol data has keeps its value, and
      a missing key is filled exactly when the top level offers a value. */
  lemma MergeTopLevelByKey(entry: Object, pdata: Object, k: string)
    ensures var r := MergeTopLevel(entry, pdata);
      && (k in pdata ==> k in r && r[k] == pdata[k])
      && (k !in pdata ==> (k in r <==> TopLevelValue(entry, k).Some?))
      && (k !in pdata && k in r ==> r[k] == TopLevelValue(entry, k).value)
  {
    var d1 := FillIf(pdata, Get(entry, "nodes").JArr?, "nodes", Get(entry, "nodes"));
    var d2 := FillIf(d1, Get(entry, "electrum").JArr?, "electrum", Get(entry, "electrum"));
    var d3 := FillIf(d2, Get(entry, "rpc_urls").JArr?, "rpc_urls", Get(entry, "rpc_urls"));
    var d4 := FillIf(d3, Truthy(Get(entry, "swap_contract_address")), "swap_contract_address",
                     Get(entry, "swap_contract_address"));
    var d5 := FillIf(d4, Truthy(Get(entry, "fallback_swap_contract")), "fallback_swap_contract",
                     Get(entry, "fallback_swap_contract"));
    var d6 := FillIf(d5, Truthy(ChainIdOf(entry)), "chain_id", ChainIdOf(entry));
    FillIfByKey(pdata, Get(entry, "nodes").JArr?, "nodes", Get(entry, "nodes"), k);
    FillIfByKey(d1, Get(entry, "electrum").JArr?, "electrum", Get(entry, "electrum"), k);
    FillIfByKey(d2, Get(entry, "rpc_urls").JArr?, "rpc_urls", Get(entry, "rpc_urls"), k);
    FillIfByKey(d3, Truthy(Get(entry, "swap_contract_address")), "swap_contract_address",
                Get(entry, "swap_contract_address"), k);
    FillIfByKey(d4, Truthy(Get(entry, "fallback_swap_contract")), "fallback_swap_contract",
                Get(entry, "fallback_swap_contract"), k);
    FillIfByKey(d5, Truthy(ChainIdOf(entry)), "chain_id", ChainIdOf(entry), k);
    FillIfByKey(d6, Truthy(Get(entry, "denom")), "denom", Get(entry, "denom"), k);
  }

  // ---------------------------------------------------- the legacy file

  /** How the scan of the legacy `coins` list ends: with the electrum list of
      the first row for the ticker that has one, with nothing, or with an
      exception (a row whose name is a truthy non-string) that ends the scan. */
  datatype LegacyScan = LegacyFound(electrum: Json) | LegacyNotFound | LegacyAborted

  /** The first truthy one of a row's ticker, coin and symbol, upper-cased
      (the empty string when all are falsy); `None` when that value is not a
      string, where upper-casing would raise. */
  function RowSymbol(row: Object): Option<string>
  {
    var v := Or(Or(Or(Get(row, "ticker"), Get(row, "coin")), Get(row, "symbol")), JStr(""));
    if v.JStr? then Some(Upper(v.s)) else None
  }

  function ScanLegacy(rows: seq<Json>, ticker: string): LegacyScan
  {
    if rows == [] then LegacyNotFound
    else if !rows[0].JObj? then ScanLegacy(rows[1..], ticker)
    else
      match RowSymbol(rows[0].fields)
      case None => LegacyAborted
      case Some(sym) =>
        if sym == Upper(ticker) && Get(rows[0].fields, "electrum").JArr? then LegacyFound(Get(rows[0].fields, "electrum"))
        else ScanLegacy(rows[1..], ticker)
  }

  /** A found electrum list is the list of a row for the ticker, and no
      earlier dict row ended the scan or matched. */
  lemma {:induction false} ScanLegacyFound(rows: seq<Json>, ticker: string)
    requires ScanLegacy(rows, ticker).LegacyFound?
    ensures exists i :: 0 <= i < |rows| && rows[i].JObj? && RowSymbol(rows[i].fields) == Some(Upper(ticker)) &&
                        Get(rows[i].fields, "electrum") == ScanLegacy(rows, ticker).electrum &&
                        ScanLegacy(rows, ticker).electrum.JArr?
  {
    if !rows[0].JObj? || RowSymbol(rows[0].fields) != Some(Upper(ticker)) || !Get(rows[0].fields, "electrum").JArr? {
      ScanLegacyFound(rows[1..], ticker);
      var i :| 0 <= i < |rows[1..]| && rows[1..][i].JObj? && RowSymbol(rows[1..][i].fields) == Some(Upper(ticker)) &&
               Get(rows[1..][i].fields, "electrum") == ScanLegacy(rows[1..], ticker).electrum &&
               ScanLegacy(rows[1..], ticker).electrum.JArr?;
      assert rows[i + 1] == rows[1..][i];
    } else {
      assert rows[0].JObj? && RowSymbol(rows[0].fields) == Some(Upper(ticker));
    }
  }

  /** The scanning loop over the legacy rows, with its `break` and the
      exception that ends it. */
  method ScanLegacyRows(rows: seq<Json>, ticker: string) returns (scan: LegacyScan)
    ensures scan == ScanLegacy(rows, ticker)
  {
    var i := 0;
    while i < |rows|
      invariant 0 <= i <= |rows|
      invariant ScanLegacy(rows[i..], ticker) == ScanLegacy(rows, ticker)
    {
      assert rows[i..][1..] == rows[i + 1..];
      var row := rows[i];
      if row.JObj? {
        var sym := RowSymbol(row.fields);
        if sym.None? {
          return LegacyAborted;
        }
        if sym.value == Upper(ticker) && Get(row.fields, "electrum").JArr? {
          return LegacyFound(Get(row.fields, "electrum"));
        }
      }
      i := i + 1;
    }
    return LegacyNotFound;
  }

  /** The legacy file is consulted for a UTXO coin (a missing type counts as
      UTXO) whose protocol data has no truthy electrum list. */
  predicate NeedsLegacy(ptype: Json, pdata: Object)
  {
    Upper(PyStr(Or(ptype, JStr("UTXO")))) == "UTXO" && !Truthy(Get(pdata, "electrum"))
  }

  /** The entry `_find_coin_entry` finds, or an empty dict when it finds none. */
  function EntryObject(cfg: Items, ticker: string): Object
  {
    var e := CoinEntry(cfg, ticker);
    if e.Some? then e.value.fields else map[]
  }

  /** The protocol data `get_coin_protocol` returns. `legacy` is what the
      legacy `coins` file holds (`JNull` when it is missing or unreadable). */
  function ProtocolDataFor(cfg: Items, legacy: Json, ticker: string): Object
  {
    var entry := EntryObject(cfg, ticker);
    var merged := MergeTopLevel(entry, EntryProtocolData(entry));
    if NeedsLegacy(EntryProtocolType(entry), merged) && legacy.JArr? && ScanLegacy(legacy.items, ticker).LegacyFound?
    then SetDefault(merged, "electrum", ScanLegacy(legacy.items, ticker).electrum)
    else merged
  }

  /** `get_coin_protocol` */
  method GetCoinProtocol(loader: CoinsConfigLoader, file: ConfigFile, legacy: Json, ticker: string)
    returns (ptype: Json, pdata: Object)
    modifies loader
    ensures old(loader.cache) != [] ==> loader.cache == old(loader.cache)
    ensures old(loader.cache) == [] ==> loader.cache == FileConfig(file)
    ensures ptype == EntryProtocolType(EntryObject(loader.cache, ticker))
    ensures pdata == ProtocolDataFor(loader.cache, legacy, ticker)
  {
    var cfg := loader.Load(file);
    ptype, pdata := ProtocolFromConfig(cfg, legacy, ticker);
  }

  /** The part of `get_coin_protocol` after the configuration is loaded. */
  method ProtocolFromConfig(cfg: Items, legacy: Json, ticker: string) returns (ptype: Json, pdata: Object)
    ensures ptype == EntryProtocolType(EntryObject(cfg, ticker))
    ensures pdata == ProtocolDataFor(cfg, legacy, ticker)
  {
    var found := FindCoinEntry(cfg, ticker);
    var entry := if found.Some? then found.value.fields else map[];
    ptype := EntryProtocolType(entry);
    pdata := MergeTopLevel(entry, EntryProtocolData(entry));
    if NeedsLegacy(ptype, pdata) && legacy.JArr? {
      var scan := ScanLegacyRows(legacy.items, ticker);
      if scan.LegacyFound? {
        pdata := SetDefault(pdata, "electrum", scan.electrum);
      }
    }
  }

  /** Protocol data a coin already has is never replaced by the legacy file:
      the electrum list is filled from it only when the key is missing. */
  lemma LegacyFillsOnlyMissing(cfg: Items, legacy: Json, ticker: string)
    ensures var entry := EntryObject(cfg, ticker);
      var merged := MergeTopLevel(entry, EntryProtocolData(entry));
      var pdata := ProtocolDataFor(cfg, legacy, ticker);
      && pdata.Keys <= merged.Keys + {"electrum"}
      && (forall k :: k in merged ==> k in pdata && pdata[k] == merged[k])
  {
  }

  // ------------------------------------------------------ the normalisers

  /** One entry of `_normalize_eth_nodes`: a dict with a truthy url or a string. */
  function EthNodeOf(n: Json): Option<Json>
  {
    if n.JObj? && Truthy(Get(n.fields, "url")) then Some(JObj(map["url" := n.fields["url"]]))
    else if n.JStr? then Some(JObj(map["url" := n]))
    else None
  }

  /** `_normalize_eth_nodes` */
  method NormalizeEthNodes(nodes: Json) returns (norm: seq<Json>)
    ensures norm == Collect(Iterated(nodes), EthNodeOf)
  {
    norm := CollectEntries(Iterated(nodes), EthNodeOf);
  }

  /** Every normalised ETH node is `{"url": ...}` and nothing else. */
  lemma EthNodesOnlyUrl(nodes: Json)
    ensures forall v :: v in Collect(Iterated(nodes), EthNodeOf) ==> v.JObj? && v.fields.Keys == {"url"}
  {
    CollectFrom(Iterated(nodes), EthNodeOf);
  }

  /** A string entry becomes a node, even the empty string. */
  lemma EthNodeOfString(s: string)
    ensures EthNodeOf(JStr(s)) == Some(JObj(map["url" := JStr(s)]))
  {
  }

  /** One entry of the `rpc_urls` loop: the truthy url fields of a dict when
      its url is truthy, or a string as the url. */
  function TendermintNodeOf(e: Json): Option<Json>
  {
    if e.JObj? then
      var node := PickTruthy(e.fields, {"url", "api_url", "grpc_url", "ws_url"});
      if "url" in node then Some(JObj(node)) else None
    else if e.JStr? then Some(JObj(map["url" := e]))
    else None
  }

  /** One entry of the `nodes` fallback loop. */
  function UrlNodeOf(n: Json): Option<Json>
  {
    if n.JObj? && Truthy(Get(n.fields, "url")) then Some(JObj(map["url" := n.fields["url"]])) else None
  }

  /** The nodes `_normalize_tendermint_nodes` returns: those from `rpc_urls`,
      and from `nodes` only when `rpc_urls` yields none. */
  function TendermintNodes(pdata: Object): seq<Json>
  {
    var fromRpc := Collect(AsList(Get(pdata, "rpc_urls")), TendermintNodeOf);
    if fromRpc != [] then fromRpc else Collect(AsList(Get(pdata, "nodes")), UrlNodeOf)
  }

  /** `_normalize_tendermint_nodes` */
  method NormalizeTendermintNodes(pdata: Object) returns (nodes: seq<Json>)
    ensures nodes == TendermintNodes(pdata)
  {
    nodes := [];
    if Get(pdata, "rpc_urls").JArr? {
      nodes := CollectEntries(Get(pdata, "rpc_urls").items, TendermintNodeOf);
    }
    if nodes == [] && Get(pdata, "nodes").JArr? {
      nodes := CollectEntries(Get(pdata, "nodes").items, UrlNodeOf);
    }
  }

  /** Every Tendermint node has a url, and `nodes` is consulted only when no
      `rpc_urls` entry yields a node. */
  lemma TendermintNodesFacts(pdata: Object)
    ensures forall v :: v in TendermintNodes(pdata) ==> v.JObj? && "url" in v.fields
    ensures (exists e :: e in AsList(Get(pdata, "rpc_urls")) && TendermintNodeOf(e).Some?) ==>
      TendermintNodes(pdata) == Collect(AsList(Get(pdata, "rpc_urls")), TendermintNodeOf)
  {
    CollectFrom(AsList(Get(pdata, "rpc_urls")), TendermintNodeOf);
    CollectFrom(AsList(Get(pdata, "nodes")), UrlNodeOf);
    CollectEmpty(AsList(Get(pdata, "rpc_urls")), TendermintNodeOf);
  }

  /** `_filter_limit_electrum`: WSS and unusable entries dropped, SSL, then
      TCP, then the rest, each in input order, at most three. */
  method FilterLimitElectrum(servers: Json) returns (r: seq<Json>)
    ensures r == LimitedElectrum(servers)
  {
    if !servers.JArr? {
      return [];
    }
    var ssl, tcp, other := BucketSkippingWss(servers.items);
    r := Head3(ssl + tcp + other);
  }

  // ------------------------------------------------------- the command

  /** The init method chosen by a case-insensitive substring match on the
      protocol type, a missing type counting as UTXO. */
  function CommandMethod(ptype: Json): string
  {
    var p := Lower(PyStr(Or(ptype, JStr("UTXO"))));
    if Contains(p, "eth") then RequestBuilder.EthInit
    else if Contains(p, "tendermint") || Contains(p, "cosmos") then RequestBuilder.TendermintInit
    else RequestBuilder.UtxoInit
  }

  lemma LowerUpper(s: string)
    ensures Lower(Upper(s)) == Lower(s)
  {
  }

  /** The match ignores the case of the protocol type. */
  lemma CommandMethodIgnoresCase(s: string)
    ensures CommandMethod(JStr(Upper(s))) == CommandMethod(JStr(s))
  {
    LowerUpper(s);
  }

  /** A coin without a protocol type is activated as UTXO. */
  lemma MissingTypeIsUtxo()
    ensures CommandMethod(JNull) == RequestBuilder.UtxoInit
  {
    var p := Lower("UTXO");
    assert p == "utxo";
    NotContained(p, "eth", 'e');
    NotContained(p, "tendermint", 'e');
    NotContained(p, "cosmos", 'c');
  }

  /** The first truthy one of `swap_contract_address`, `swap_contract`,
      `swap` and `swap_contracts`, the last of them when none is. */
  function SwapContractSource(pdata: Object): Json
  {
    Or(Or(Or(Get(pdata, "swap_contract_address"), Get(pdata, "swap_contract")), Get(pdata, "swap")), Get(pdata, "swap_contracts"))
  }

  /** The swap-contract fields of an ETH command. */
  function WithSwapContracts(params: Object, pdata: Object): Object
  {
    var sc := SwapContractSource(pdata);
    var p1 :=
      if sc.JArr? && sc.items != [] then
        (var q := params["swap_contract_address" := sc.items[0]];
         if |sc.items| > 1 then q["fallback_swap_contract" := sc.items[1]] else q)
      else if sc.JStr? then params["swap_contract_address" := sc]
      else params;
    var fb := Get(pdata, "fallback_swap_contract");
    if Truthy(fb) && !Truthy(Get(p1, "fallback_swap_contract")) then p1["fallback_swap_contract" := fb] else p1
  }

  /** A list gives the primary contract and the fallback; a string gives the
      primary; an explicit `fallback_swap_contract` is used only when the list
      set no truthy fallback. */
  lemma SwapContractRules(params: Object, pdata: Object)
    requires "swap_contract_address" !in params && "fallback_swap_contract" !in params
    ensures var sc := SwapContractSource(pdata);
      var r := WithSwapContracts(params, pdata);
      var fb := Get(pdata, "fallback_swap_contract");
      && (sc.JArr? && sc.items != [] ==> r["swap_contract_address"] == sc.items[0])
      && (sc.JStr? ==> r["swap_contract_address"] == sc)
      && (!(sc.JArr? && sc.items != []) && !sc.JStr? ==> "swap_contract_address" !in r)
      && (sc.JArr? && |sc.items| > 1 && Truthy(sc.items[1]) ==> r["fallback_swap_contract"] == sc.items[1])
      && (!(sc.JArr? && |sc.items| > 1 && Truthy(sc.items[1])) && Truthy(fb) ==> r["fallback_swap_contract"] == fb)
      && (forall k :: k in params ==> k in r && r[k] == params[k])
  {
  }

  const CommonKeys: set<string> := {"ticker", "tx_history", "get_balances"}

  function BaseParams(t: string): Object
  {
    map["ticker" := JStr(t), "tx_history" := JBool(true), "get_balances" := JBool(true)]
  }

  /** The params of an ETH command. */
  function EthParams(t: string, pdata: Object, nodes: seq<Json>): Object
  {
    var base := BaseParams(t)["erc20_tokens_requests" := JArr([])];
    var withNodes := if nodes != [] then base["nodes" := JArr(nodes)] else base;
    WithSwapContracts(withNodes, pdata)
  }

  /** The params of a Tendermint command. */
  function TendermintParams(t: string, pdata: Object, nodes: seq<Json>): Object
  {
    var withNodes := if nodes != [] then BaseParams(t)["nodes" := JArr(nodes)] else BaseParams(t);
    var withChain := if Truthy(Get(pdata, "chain_id")) then withNodes["chain_id" := Get(pdata, "chain_id")] else withNodes;
    if Truthy(Get(pdata, "denom")) then withChain["denom" := Get(pdata, "denom")] else withChain
  }

  /** The params of a UTXO command: Electrum mode with the filtered servers. */
  function UtxoParams(t: string, servers: seq<Json>): Object
  {
    BaseParams(t)["activation_params" :=
      JObj(map["mode" := JObj(map["rpc" := JStr("Electrum"), "rpc_data" := JObj(map["servers" := JArr(servers)])])])]
  }

  /** The version 2.0 RPC envelope around a method and its params, with id 0. */
  function Envelope(rpcMethod: string, params: Object): Json
  {
    JObj(map["mmrpc" := JStr("2.0"), "method" := JStr(rpcMethod), "params" := JObj(params), "id" := JInt(0)])
  }

  /** The command for an upper-cased ticker with the given protocol type and data. */
  function CommandFor(t: string, ptype: Json, pdata: Object): Json
  {
    var m := CommandMethod(ptype);
    if m == RequestBuilder.EthInit then
      Envelope(m, EthParams(t, pdata, Collect(Iterated(Or(Get(pdata, "nodes"), Get(pdata, "rpc"))), EthNodeOf)))
    else if m == RequestBuilder.TendermintInit then Envelope(m, TendermintParams(t, pdata, TendermintNodes(pdata)))
    else Envelope(m, UtxoParams(t, LimitedElectrum(Get(pdata, "electrum"))))
  }

  /** The params every command shares: the ticker, history and balances
      requested, and a node list only when it is non-empty. */
  predicate CommonParams(params: Object, t: string)
  {
    && CommonKeys <= params.Keys
    && params["ticker"] == JStr(t) && params["tx_history"] == JBool(true) && params["get_balances"] == JBool(true)
    && ("nodes" in params ==> params["nodes"] != JArr([]))
  }

  lemma EnvelopeShape(rpcMethod: string, params: Object)
    ensures var c := Envelope(rpcMethod, params);
      && c.JObj? && c.fields.Keys == {"mmrpc", "method", "params", "id"}
      && c.fields["mmrpc"] == JStr("2.0") && c.fields["id"] == JInt(0)
      && c.fields["method"] == JStr(rpcMethod) && c.fields["params"] == JObj(params)
  {
  }

  lemma EthParamsCommon(t: string, pdata: Object, nodes: seq<Json>)
    ensures CommonParams(EthParams(t, pdata, nodes), t)
  {
    var base := BaseParams(t)["erc20_tokens_requests" := JArr([])];
    var withNodes := if nodes != [] then base["nodes" := JArr(nodes)] else base;
    SwapContractRules(withNodes, pdata);
  }

  lemma TendermintParamsCommon(t: string, pdata: Object, nodes: seq<Json>)
    ensures CommonParams(TendermintParams(t, pdata, nodes), t)
  {
  }

  lemma UtxoParamsCommon(t: string, servers: seq<Json>)
    ensures CommonParams(UtxoParams(t, servers), t)
  {
  }

  /** Every command has the same envelope and the method the protocol type
      selects, and its params name the ticker and ask for history and
      balances; they carry a node list only when it is non-empty. */
  lemma CommandShape(t: string, ptype: Json, pdata: Object)
    ensures var c := CommandFor(t, ptype, pdata);
      && c.JObj? && c.fields.Keys == {"mmrpc", "method", "params", "id"}
      && c.fields["mmrpc"] == JStr("2.0") && c.fields["id"] == JInt(0)
      && c.fields["method"] == JStr(CommandMethod(ptype))
      && c.fields["params"].JObj? && CommonParams(c.fields["params"].fields, t)
  {
    var m := CommandMethod(ptype);
    if m == RequestBuilder.EthInit {
      var nodes := Collect(Iterated(Or(Get(pdata, "nodes"), Get(pdata, "rpc"))), EthNodeOf);
      EthParamsCommon(t, pdata, nodes);
      EnvelopeShape(m, EthParams(t, pdata, nodes));
    } else if m == RequestBuilder.TendermintInit {
      TendermintParamsCommon(t, pdata, TendermintNodes(pdata));
      EnvelopeShape(m, TendermintParams(t, pdata, TendermintNodes(pdata)));
    } else {
      UtxoParamsCommon(t, LimitedElectrum(Get(pdata, "electrum")));
      EnvelopeShape(m, UtxoParams(t, LimitedElectrum(Get(pdata, "electrum"))));
    }
  }

  /** The UTXO filter keeps at most three usable servers of the input, none
      of them WSS, SSL before TCP before the rest. */
  lemma LimitedElectrumFacts(servers: Json)
    ensures var s := LimitedElectrum(servers);
      && |s| <= 3
      && (forall x :: x in s ==> Usable(x) && TransportOf(x) != Wss && x in servers.items)
      && (forall i, j :: 0 <= i < j < |s| ==> Rank(TransportOf(s[i])) <= Rank(TransportOf(s[j])))
  {
    LimitedElectrumIsUnprioritised(servers);
    ElectrumOrderFacts(servers, false, NoPreference);
  }

  /** `build_activate_command` */
  method BuildActivateCommand(loader: CoinsConfigLoader, file: ConfigFile, legacy: Json, coin: string)
    returns (command: Json)
    modifies loader
    ensures old(loader.cache) != [] ==> loader.cache == old(loader.cache)
    ensures old(loader.cache) == [] ==> loader.cache == FileConfig(file)
    ensures command == CommandFor(Upper(coin), EntryProtocolType(EntryObject(loader.cache, Upper(coin))),
                                  ProtocolDataFor(loader.cache, legacy, Upper(coin)))
  {
    var t := Upper(coin);
    var ptype, pdata := GetCoinProtocol(loader, file, legacy, t);
    var m := CommandMethod(ptype);
    if m == RequestBuilder.EthInit {
      var nodes := NormalizeEthNodes(Or(Get(pdata, "nodes"), Get(pdata, "rpc")));
      command := Envelope(m, EthParams(t, pdata, nodes));
    } else if m == RequestBuilder.TendermintInit {
      var nodes := NormalizeTendermintNodes(pdata);
      command := Envelope(m, TendermintParams(t, pdata, nodes));
    } else {
      var servers := FilterLimitElectrum(Get(pdata, "electrum"));
      command := Envelope(m, UtxoParams(t, servers));
    }
  }
}
