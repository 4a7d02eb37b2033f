/**
 * The dictionary logic of the market-maker bot's settings (`models.py` and
 * `lib_const.py`): activation-command lookup, the coins still to activate,
 * one pair's trading config, the pair table built from the buy and sell
 * lists and its in-place updates, `reload_settings`, and the swap counts of
 * `get_recent_swaps_info`.
 */
module BotConfig {
  import opened Wrappers
  import opened JsonData

  // ---------------------------------------------------- activation commands

  /** The index of the first protocol table of `ACTIVATE_COMMANDS` holding
      the coin, or `|commands|` when none does. A table that is not a dict
      reads as empty. */
  function FirstTable(commands: Items, coin: string): (r: nat)
    ensures r <= |commands|
    ensures r < |commands| ==> coin in AsObject(commands[r].1)
    ensures forall j :: 0 <= j < r ==> coin !in AsObject(commands[j].1)
  {
    if commands == [] then 0
    else if coin in AsObject(commands[0].1) then 0
    else
      var rest := FirstTable(commands[1..], coin);
      assert forall j :: 1 <= j < |commands| ==> commands[j] == commands[1..][j - 1];
      1 + rest
  }

  /** `lib_helper.get_activate_command`: the command of the first table
      holding the coin; `None` when no table holds it. */
  function FirstActivationCommand(commands: Items, coin: string): (r: Option<Json>)
    ensures r.None? <==> forall i :: 0 <= i < |commands| ==> coin !in AsObject(commands[i].1)
    ensures r.Some? ==>
      exists i ::
        && 0 <= i < |commands| && coin in AsObject(commands[i].1)
        && r.value == AsObject(commands[i].1)[coin]
        && forall j :: 0 <= j < i ==> coin !in AsObject(commands[j].1)
  {
    var i := FirstTable(commands, coin);
    if i < |commands| then Some(AsObject(commands[i].1)[coin]) else None
  }

  /** The index of the last protocol table holding the coin, or -1. */
  function LastTable(commands: Items, coin: string): (r: int)
    ensures -1 <= r < |commands|
    ensures 0 <= r ==> coin in AsObject(commands[r].1)
    ensures forall j :: r < j < |commands| ==> coin !in AsObject(commands[j].1)
  {
    if commands == [] then -1
    else if coin in AsObject(commands[|commands| - 1].1) then |commands| - 1
    else LastTable(commands[..|commands| - 1], coin)
  }

  /** `Dex.get_activation_command`: the loop keeps overwriting, so the
      command of the last table holding the coin wins. */
  function LastActivationCommand(commands: Items, coin: string): (r: Option<Json>)
    ensures r.None? <==> forall i :: 0 <= i < |commands| ==> coin !in AsObject(commands[i].1)
    ensures r.Some? ==>
      exists i ::
        && 0 <= i < |commands| && coin in AsObject(commands[i].1)
        && r.value == AsObject(commands[i].1)[coin]
        && forall j :: i < j < |commands| ==> coin !in AsObject(commands[j].1)
  {
    var i := LastTable(commands, coin);
    if 0 <= i then Some(AsObject(commands[i].1)[coin]) else None
  }

  /** When at most one protocol table holds the coin, the two lookups agree. */
  lemma ActivationCommandsAgree(commands: Items, coin: string)
    requires forall i, j :: 0 <= i < j < |commands| && coin in AsObject(commands[i].1) ==>
      coin !in AsObject(commands[j].1)
    ensures FirstActivationCommand(commands, coin) == LastActivationCommand(commands, coin)
  {
    var f, l := FirstTable(commands, coin), LastTable(commands, coin);
    if f < |commands| {
      assert l >= f;
      assert !(f < l);
    }
  }

  /** A coin listed under two protocols: the `lib_helper` lookup gives the
      first command, the `models.py` one the second. */
  lemma ActivationCommandsDiffer()
    ensures var commands := [("UTXO", JObj(map["KMD" := JInt(1)])), ("ZHTLC", JObj(map["KMD" := JInt(2)]))];
      && FirstActivationCommand(commands, "KMD") == Some(JInt(1))
      && LastActivationCommand(commands, "KMD") == Some(JInt(2))
  {
    var commands := [("UTXO", JObj(map["KMD" := JInt(1)])), ("ZHTLC", JObj(map["KMD" := JInt(2)]))];
    assert "KMD" in AsObject(commands[0].1);
    assert "KMD" in AsObject(commands[1].1);
  }

  // ------------------------------------------------------ activate_bot_coins

  /** `MakerBot.activate_bot_coins`: the buy and sell coins that are not
      enabled, `None` when there are none (nothing is activated then).
      `listed` stands for `dex.enabled_coins_list`, used when the given list
      is falsy. */
  function CoinsToActivate(buy: seq<string>, sell: seq<string>, enabled: seq<string>, listed: seq<string>): (r: Option<set<string>>)
    ensures var active := if enabled != [] then enabled else listed;
      && (r.None? <==> forall c :: (c in buy || c in sell) ==> c in active)
      && (r.Some? ==> r.value != {} && forall c :: c in r.value <==> (c in buy || c in sell) && c !in active)
  {
    var active := if enabled != [] then enabled else listed;
    var coins := set c | c in buy + sell && c !in active;
    assert forall c :: (c in buy || c in sell) && c !in active ==> c in buy + sell && c in coins;
    if coins == {} then None
    else
      assert exists c :: c in coins;
      Some(coins)
  }

  // -------------------------------------------------------------- get_config

  /** The values `float(min_usd)`, `float(max_usd)` and `round(spread, 4)`
      are made of; the conversions themselves are not modelled. */
  datatype TradeTerms = TradeTerms(minUsd: Json, maxUsd: Json, spread: Json)

  const ConfigTemplate: Object := map[
    "base" := JStr("base_coin"),
    "rel" := JStr("rel_coin"),
    "base_confs" := JInt(3),
    "base_nota" := JBool(true),
    "rel_confs" := JInt(3),
    "rel_nota" := JBool(true),
    "enable" := JBool(true),
    "price_elapsed_validity" := JInt(180),
    "check_last_bidirectional_trade_thresh_hold" := JBool(true)
  ]

  /** `get_config`: a copy of the template updated with the pair and its terms. */
  function GetConfig(base: string, rel: string, t: TradeTerms): Object
  {
    ConfigTemplate + map[
      "base" := JStr(base),
      "rel" := JStr(rel),
      "min_volume" := JObj(map["usd" := t.minUsd]),
      "max_volume" := JObj(map["usd" := t.maxUsd]),
      "spread" := t.spread
    ]
  }

  /** The config holds the template's fields and the three added ones. */
  lemma GetConfigKeys(base: string, rel: string, t: TradeTerms)
    ensures forall k :: k in GetConfig(base, rel, t) <==>
      k in ConfigTemplate || k == "min_volume" || k == "max_volume" || k == "spread"
  {
  }

  /** Base and rel are overridden, the volumes and spread come from the
      terms, and every other template field keeps its value. */
  lemma GetConfigValues(base: string, rel: string, t: TradeTerms)
    ensures var c := GetConfig(base, rel, t);
      && c["base"] == JStr(base) && c["rel"] == JStr(rel)
      && c["min_volume"] == JObj(map["usd" := t.minUsd])
      && c["max_volume"] == JObj(map["usd" := t.maxUsd])
      && c["spread"] == t.spread
      && (forall k :: k in ConfigTemplate && k != "base" && k != "rel" ==> c[k] == ConfigTemplate[k])
  {
  }

  // ------------------------------------------------------------- pair keys

  /** The key of a pair: base and rel joined by a slash. */
  function PairKey(base: string, rel: string): string
  {
    base + "/" + rel
  }

  lemma PairKeySameBase(base: string, r1: string, r2: string)
    ensures PairKey(base, r1) == PairKey(base, r2) ==> r1 == r2
  {
    if PairKey(base, r1) == PairKey(base, r2) {
      assert r1 == PairKey(base, r1)[|base| + 1..];
      assert r2 == PairKey(base, r2)[|base| + 1..];
    }
  }

  lemma PairKeySameRel(b1: string, b2: string, rel: string)
    ensures PairKey(b1, rel) == PairKey(b2, rel) ==> b1 == b2
  {
    var k1, k2 := PairKey(b1, rel), PairKey(b2, rel);
    if k1 == k2 {
      assert b1 == k1[..|k1| - |rel| - 1];
      assert b2 == k2[..|k2| - |rel| - 1];
    }
  }

  /** In `base/rel` with `base` free of "/", the first "/" is at `|base|`. */
  lemma FirstSlash(base: string, rel: string)
    requires '/' !in base
    ensures PairKey(base, rel)[|base|] == '/'
    ensures forall i :: 0 <= i < |base| ==> PairKey(base, rel)[i] != '/'
  {
    assert forall i :: 0 <= i < |base| ==> PairKey(base, rel)[i] == base[i];
  }

  /** For bases without "/", the key names its pair. */
  lemma PairKeyInjective(b1: string, r1: string, b2: string, r2: string)
    requires '/' !in b1 && '/' !in b2
    ensures PairKey(b1, r1) == PairKey(b2, r2) ==> b1 == b2 && r1 == r2
  {
    var k1, k2 := PairKey(b1, r1), PairKey(b2, r2);
    if k1 == k2 {
      FirstSlash(b1, r1);
      FirstSlash(b2, r2);
      assert |b1| == |b2|;
      assert b1 == k1[..|b1|] && b2 == k2[..|b2|];
      PairKeySameBase(b1, r1, r2);
    }
  }

  predicate NoSlash(names: seq<string>)
  {
    forall i :: 0 <= i < |names| ==> '/' !in names[i]
  }

  predicate Distinct(names: seq<string>)
  {
    forall i, j :: 0 <= i < j < |names| ==> names[i] != names[j]
  }

  function SetOf(names: seq<string>): set<string>
  {
    set x | x in names
  }

  // ---------------------------------------------------- rows and columns

  /** The keys `base/rel` for every `rel` in `rels` other than `base`. */
  function RowTargets(base: string, rels: seq<string>): set<string>
  {
    if rels == [] then {}
    else
      var rel := rels[|rels| - 1];
      RowTargets(base, rels[..|rels| - 1]) + (if base != rel then {PairKey(base, rel)} else {})
  }

  /** The keys `base/rel` for every `base` in `bases` other than `rel`. */
  function ColumnTargets(bases: seq<string>, rel: string): set<string>
  {
    if bases == [] then {}
    else
      var base := bases[|bases| - 1];
      ColumnTargets(bases[..|bases| - 1], rel) + (if base != rel then {PairKey(base, rel)} else {})
  }

  lemma {:induction false} RowTargetsMembers(base: string, rels: seq<string>)
    ensures forall k :: k in RowTargets(base, rels) <==>
      exists j :: 0 <= j < |rels| && rels[j] != base && k == PairKey(base, rels[j])
  {
    if rels != [] {
      var prefix := rels[..|rels| - 1];
      RowTargetsMembers(base, prefix);
      assert forall j :: 0 <= j < |prefix| ==> prefix[j] == rels[j];
    }
  }

  lemma {:induction false} ColumnTargetsMembers(bases: seq<string>, rel: string)
    ensures forall k :: k in ColumnTargets(bases, rel) <==>
      exists i :: 0 <= i < |bases| && bases[i] != rel && k == PairKey(bases[i], rel)
  {
    if bases != [] {
      var prefix := bases[..|bases| - 1];
      ColumnTargetsMembers(prefix, rel);
      assert forall i :: 0 <= i < |prefix| ==> prefix[i] == bases[i];
    }
  }

  /** The config of pair `base/rel` written into `cfg` for every `rel` in
      `rels` other than `base`, in order: the inner loop of
      `create_bot_params` and the `side == "base"` loop of
      `update_makerbot_coin_params`. */
  function AddRow(cfg: Object, base: string, rels: seq<string>, t: TradeTerms): Object
  {
    if rels == [] then cfg
    else
      var c := AddRow(cfg, base, rels[..|rels| - 1], t);
      var rel := rels[|rels| - 1];
      if base != rel then c[PairKey(base, rel) := JObj(GetConfig(base, rel, t))] else c
  }

  /** The `side == "rel"` loop of `update_makerbot_coin_params`. */
  function AddColumn(cfg: Object, bases: seq<string>, rel: string, t: TradeTerms): Object
  {
    if bases == [] then cfg
    else
      var c := AddColumn(cfg, bases[..|bases| - 1], rel, t);
      var base := bases[|bases| - 1];
      if base != rel then c[PairKey(base, rel) := JObj(GetConfig(base, rel, t))] else c
  }

  /** A row adds exactly its targets, each holding its pair's config, and
      leaves every other key as it was. */
  lemma {:induction false} AddRowFacts(cfg: Object, base: string, rels: seq<string>, t: TradeTerms)
    ensures AddRow(cfg, base, rels, t).Keys == cfg.Keys + RowTargets(base, rels)
    ensures forall k :: k in cfg && k !in RowTargets(base, rels) ==> AddRow(cfg, base, rels, t)[k] == cfg[k]
    ensures forall rel :: PairKey(base, rel) in RowTargets(base, rels) ==>
      AddRow(cfg, base, rels, t)[PairKey(base, rel)] == JObj(GetConfig(base, rel, t))
  {
    if rels != [] {
      var prefix := rels[..|rels| - 1];
      var last := rels[|rels| - 1];
      AddRowFacts(cfg, base, prefix, t);
      forall rel | PairKey(base, rel) in RowTargets(base, rels)
        ensures AddRow(cfg, base, rels, t)[PairKey(base, rel)] == JObj(GetConfig(base, rel, t))
      {
        PairKeySameBase(base, rel, last);
      }
    }
  }

  lemma {:induction false} AddColumnFacts(cfg: Object, bases: seq<string>, rel: string, t: TradeTerms)
    ensures AddColumn(cfg, bases, rel, t).Keys == cfg.Keys + ColumnTargets(bases, rel)
    ensures forall k :: k in cfg && k !in ColumnTargets(bases, rel) ==> AddColumn(cfg, bases, rel, t)[k] == cfg[k]
    ensures forall base :: PairKey(base, rel) in ColumnTargets(bases, rel) ==>
      AddColumn(cfg, bases, rel, t)[PairKey(base, rel)] == JObj(GetConfig(base, rel, t))
  {
    if bases != [] {
      var prefix := bases[..|bases| - 1];
      var last := bases[|bases| - 1];
      AddColumnFacts(cfg, prefix, rel, t);
      forall base | PairKey(base, rel) in ColumnTargets(bases, rel)
        ensures AddColumn(cfg, bases, rel, t)[PairKey(base, rel)] == JObj(GetConfig(base, rel, t))
      {
        PairKeySameRel(base, last, rel);
      }
    }
  }

  /** The inner loop: the configuration of every pair from `base` to a
      `rel` other than `base` is stored under the pair's key. */
  method FillRow(cfg: Object, base: string, rels: seq<string>, t: TradeTerms) returns (r: Object)
    ensures r == AddRow(cfg, base, rels, t)
  {
    r := cfg;
    for j := 0 to |rels|
      invariant r == AddRow(cfg, base, rels[..j], t)
    {
      assert rels[..j + 1][..j] == rels[..j];
      if base != rels[j] {
        r := r[PairKey(base, rels[j]) := JObj(GetConfig(base, rels[j], t))];
      }
    }
    assert rels[..|rels|] == rels;
  }

  /** The loop over `sell_coins` when `side == "rel"`. */
  method FillColumn(cfg: Object, bases: seq<string>, rel: string, t: TradeTerms) returns (r: Object)
    ensures r == AddColumn(cfg, bases, rel, t)
  {
    r := cfg;
    for i := 0 to |bases|
      invariant r == AddColumn(cfg, bases[..i], rel, t)
    {
      assert bases[..i + 1][..i] == bases[..i];
      if bases[i] != rel {
        r := r[PairKey(bases[i], rel) := JObj(GetConfig(bases[i], rel, t))];
      }
    }
    assert bases[..|bases|] == bases;
  }

  // ------------------------------------------------------ create_bot_params

  /** The `cfg` table of `create_bot_params`: a row per sell coin. */
  function PairConfigs(sells: seq<string>, buys: seq<string>, t: TradeTerms): Object
  {
    if sells == [] then map[]
    else AddRow(PairConfigs(sells[..|sells| - 1], buys, t), sells[|sells| - 1], buys, t)
  }

  /** Its keys. */
  function PairKeys(sells: seq<string>, buys: seq<string>): set<string>
  {
    if sells == [] then {}
    else PairKeys(sells[..|sells| - 1], buys) + RowTargets(sells[|sells| - 1], buys)
  }

  lemma {:induction false} PairConfigsKeys(sells: seq<string>, buys: seq<string>, t: TradeTerms)
    ensures PairConfigs(sells, buys, t).Keys == PairKeys(sells, buys)
  {
    if sells != [] {
      PairConfigsKeys(sells[..|sells| - 1], buys, t);
      AddRowFacts(PairConfigs(sells[..|sells| - 1], buys, t), sells[|sells| - 1], buys, t);
    }
  }

  /** The keys are exactly `base/rel` for `base` a sell coin and `rel` a buy
      coin with `base != rel`. */
  lemma {:induction false} PairKeysMembers(sells: seq<string>, buys: seq<string>)
    ensures forall k :: k in PairKeys(sells, buys) <==>
      exists i, j :: 0 <= i < |sells| && 0 <= j < |buys| && sells[i] != buys[j] && k == PairKey(sells[i], buys[j])
  {
    if sells != [] {
      var prefix := sells[..|sells| - 1];
      var last := sells[|sells| - 1];
      PairKeysMembers(prefix, buys);
      RowTargetsMembers(last, buys);
      assert forall i :: 0 <= i < |prefix| ==> prefix[i] == sells[i];
      forall k | exists i, j :: 0 <= i < |sells| && 0 <= j < |buys| && sells[i] != buys[j] && k == PairKey(sells[i], buys[j])
        ensures k in PairKeys(sells, buys)
      {
        var i, j :| 0 <= i < |sells| && 0 <= j < |buys| && sells[i] != buys[j] && k == PairKey(sells[i], buys[j]);
        if i == |sells| - 1 {
          assert k in RowTargets(last, buys);
        } else {
          assert k in PairKeys(prefix, buys);
        }
      }
    }
  }

  /** For sell coins without "/", the key of a sell coin and a different
      buy coin holds that pair's config: no other pair overwrites it. */
  lemma {:induction false} PairConfigsValue(sells: seq<string>, buys: seq<string>, t: TradeTerms, b: string, r: string)
    requires NoSlash(sells) && b in sells && r in buys && b != r
    ensures PairKey(b, r) in PairConfigs(sells, buys, t)
    ensures PairConfigs(sells, buys, t)[PairKey(b, r)] == JObj(GetConfig(b, r, t))
  {
    var prefix := sells[..|sells| - 1];
    var last := sells[|sells| - 1];
    assert sells == prefix + [last];
    AddRowFacts(PairConfigs(prefix, buys, t), last, buys, t);
    RowTargetsMembers(last, buys);
    var j :| 0 <= j < |buys| && buys[j] == r;
    if b == last {
      assert PairKey(b, r) in RowTargets(last, buys);
    } else {
      assert b in prefix && NoSlash(prefix);
      PairConfigsValue(prefix, buys, t, b, r);
      assert PairKey(b, r) !in RowTargets(last, buys) by {
        if PairKey(b, r) in RowTargets(last, buys) {
          var j2 :| 0 <= j2 < |buys| && buys[j2] != last && PairKey(b, r) == PairKey(last, buys[j2]);
          PairKeyInjective(b, r, last, buys[j2]);
        }
      }
    }
  }

  /** Every pair of the table holds its own config. */
  lemma PairConfigsValues(sells: seq<string>, buys: seq<string>, t: TradeTerms)
    requires NoSlash(sells)
    ensures forall i, j :: 0 <= i < |sells| && 0 <= j < |buys| && sells[i] != buys[j] ==>
      && PairKey(sells[i], buys[j]) in PairConfigs(sells, buys, t)
      && PairConfigs(sells, buys, t)[PairKey(sells[i], buys[j])] == JObj(GetConfig(sells[i], buys[j], t))
  {
    forall i, j | 0 <= i < |sells| && 0 <= j < |buys| && sells[i] != buys[j]
      ensures && PairKey(sells[i], buys[j]) in PairConfigs(sells, buys, t)
              && PairConfigs(sells, buys, t)[PairKey(sells[i], buys[j])] == JObj(GetConfig(sells[i], buys[j], t))
    {
      PairConfigsValue(sells, buys, t, sells[i], buys[j]);
    }
  }

  lemma {:induction false} RowTargetsCount(base: string, rels: seq<string>)
    requires Distinct(rels)
    ensures |RowTargets(base, rels)| == |rels| - (if base in rels then 1 else 0)
  {
    if rels != [] {
      var prefix := rels[..|rels| - 1];
      var last := rels[|rels| - 1];
      assert Distinct(prefix);
      RowTargetsCount(base, prefix);
      RowTargetsMembers(base, prefix);
      assert last !in prefix;
      if base != last {
        if PairKey(base, last) in RowTargets(base, prefix) {
          var j :| 0 <= j < |prefix| && prefix[j] != base && PairKey(base, last) == PairKey(base, prefix[j]);
          PairKeySameBase(base, last, prefix[j]);
        }
      }
      assert (base in rels) == (base in prefix || base == last);
    }
  }

  /** Rows of different bases share no key. */
  lemma RowDisjoint(sells: seq<string>, last: string, buys: seq<string>)
    requires NoSlash(sells) && '/' !in last && last !in sells
    ensures PairKeys(sells, buys) * RowTargets(last, buys) == {}
  {
    PairKeysMembers(sells, buys);
    RowTargetsMembers(last, buys);
    forall k | k in PairKeys(sells, buys) && k in RowTargets(last, buys) ensures false {
      var i, j :| 0 <= i < |sells| && 0 <= j < |buys| && sells[i] != buys[j] && k == PairKey(sells[i], buys[j]);
      var j2 :| 0 <= j2 < |buys| && buys[j2] != last && k == PairKey(last, buys[j2]);
      PairKeyInjective(sells[i], buys[j], last, buys[j2]);
    }
  }

  /** Adding a sell coin not seen before adds one shared coin exactly when
      it is also a buy coin. */
  lemma SharedStep(prefix: seq<string>, last: string, buys: seq<string>)
    requires last !in prefix
    ensures |SetOf(prefix + [last]) * SetOf(buys)| ==
      |SetOf(prefix) * SetOf(buys)| + (if last in buys then 1 else 0)
  {
    var shared := SetOf(prefix) * SetOf(buys);
    assert SetOf(prefix + [last]) == SetOf(prefix) + {last};
    assert last !in shared;
    if last in buys {
      assert SetOf(prefix + [last]) * SetOf(buys) == shared + {last};
    } else {
      assert SetOf(prefix + [last]) * SetOf(buys) == shared;
    }
  }

  lemma MulSucc(n: nat, m: nat)
    ensures (n + 1) * m == n * m + m
  {
  }

  /** For duplicate-free lists and sell coins without "/", the table has
      `|sell| * |buy| - |sell ∩ buy|` pairs. */
  lemma {:induction false} PairKeysCount(sells: seq<string>, buys: seq<string>)
    requires Distinct(sells) && Distinct(buys) && NoSlash(sells)
    ensures |PairKeys(sells, buys)| == |sells| * |buys| - |SetOf(sells) * SetOf(buys)|
  {
    if sells != [] {
      var prefix := sells[..|sells| - 1];
      var last := sells[|sells| - 1];
      assert sells == prefix + [last];
      assert Distinct(prefix) && NoSlash(prefix);
      assert last !in prefix;
      PairKeysCount(prefix, buys);
      RowTargetsCount(last, buys);
      RowDisjoint(prefix, last, buys);
      SharedStep(prefix, last, buys);
      assert |PairKeys(sells, buys)| == |PairKeys(prefix, buys)| + |RowTargets(last, buys)|;
      assert |sells| == |prefix| + 1;
      MulSucc(|prefix|, |buys|);
    }
  }

  /** `create_bot_params` / `create_makerbot_params`: the params written to
      the bot's file. `priceUrl` is the price feed constant, `refreshRate`
      the value of `int(refresh_rate)`. */
  method CreateBotParams(buy: seq<string>, sell: seq<string>, t: TradeTerms, refreshRate: int, priceUrl: Json)
    returns (params: Object)
    ensures params == map[
      "price_url" := priceUrl,
      "bot_refresh_rate" := JInt(refreshRate),
      "cfg" := JObj(PairConfigs(sell, buy, t))]
  {
    params := map["price_url" := priceUrl, "bot_refresh_rate" := JInt(refreshRate)];
    var configs: Object := map[];
    for i := 0 to |sell|
      invariant configs == PairConfigs(sell[..i], buy, t)
    {
      assert sell[..i + 1][..i] == sell[..i];
      configs := FillRow(configs, sell[i], buy, t);
    }
    assert sell[..|sell|] == sell;
    params := params["cfg" := JObj(configs)];
  }

  // ------------------------------------------------------ updating the table

  /** `bot_params["cfg"]` fails with KeyError when absent and with
      AttributeError on `.update` when it is not a dict. */
  datatype ParamsError = NoCfgTable

  function CfgTable(params: Object): Option<Object>
  {
    if "cfg" in params && params["cfg"].JObj? then Some(params["cfg"].fields) else None
  }

  /** The table is replaced and other fields of the params are kept. */
  predicate CfgReplaced(params: Object, updated: Object, cfg: Object)
  {
    && updated.Keys == params.Keys
    && (forall k :: k in params && k != "cfg" ==> updated[k] == params[k])
    && CfgTable(updated) == Some(cfg)
  }

  /** `update_pair_params` / `update_makerbot_pair_params`: rewrites the one
      key `base/rel`. */
  function UpdatePairParams(params: Object, base: string, rel: string, t: TradeTerms): (r: Result<Object, ParamsError>)
    ensures r.Err? <==> CfgTable(params).None?
    ensures r.Ok? ==>
      var before := CfgTable(params).value;
      exists after: Object ::
        && CfgReplaced(params, r.value, after)
        && after.Keys == before.Keys + {PairKey(base, rel)}
        && after[PairKey(base, rel)] == JObj(GetConfig(base, rel, t))
        && forall k :: k in before && k != PairKey(base, rel) ==> after[k] == before[k]
  {
    match CfgTable(params)
    case None => Err(NoCfgTable)
    case Some(cfg) =>
      var after := cfg[PairKey(base, rel) := JObj(GetConfig(base, rel, t))];
      var updated := params["cfg" := JObj(after)];
      assert CfgReplaced(params, updated, after);
      Ok(updated)
  }

  /** The keys `update_makerbot_coin_params` rewrites. */
  function CoinTargets(side: string, coin: string, buy: seq<string>, sell: seq<string>): set<string>
  {
    if side == "base" then RowTargets(coin, buy)
    else if side == "rel" then ColumnTargets(sell, coin)
    else {}
  }

  /** The table after `update_makerbot_coin_params`. */
  function UpdatedCfg(cfg: Object, side: string, coin: string, buy: seq<string>, sell: seq<string>, t: TradeTerms): Object
  {
    if side == "base" then AddRow(cfg, coin, buy, t)
    else if side == "rel" then AddColumn(cfg, sell, coin, t)
    else cfg
  }

  /** Only the targeted keys change: with side "base" they are `coin/rel`
      for the buy coins, with side "rel" `base/coin` for the sell coins, and
      each holds its pair's config. */
  lemma UpdatedCfgFacts(cfg: Object, side: string, coin: string, buy: seq<string>, sell: seq<string>, t: TradeTerms)
    ensures var after := UpdatedCfg(cfg, side, coin, buy, sell, t);
      var targets := CoinTargets(side, coin, buy, sell);
      && after.Keys == cfg.Keys + targets
      && (forall k :: k in cfg && k !in targets ==> after[k] == cfg[k])
      && (side == "base" ==> forall j :: 0 <= j < |buy| && buy[j] != coin ==>
            PairKey(coin, buy[j]) in after && after[PairKey(coin, buy[j])] == JObj(GetConfig(coin, buy[j], t)))
      && (side == "rel" ==> forall i :: 0 <= i < |sell| && sell[i] != coin ==>
            PairKey(sell[i], coin) in after && after[PairKey(sell[i], coin)] == JObj(GetConfig(sell[i], coin, t)))
  {
    AddRowFacts(cfg, coin, buy, t);
    AddColumnFacts(cfg, sell, coin, t);
    RowTargetsMembers(coin, buy);
    ColumnTargetsMembers(sell, coin);
  }

  /** The `side == "base"` branch: the first target reached without a table
      raises. */
  method UpdateRow(params: Object, coin: string, buy: seq<string>, t: TradeTerms) returns (r: Result<Object, ParamsError>)
    ensures CfgTable(params).None? ==> (r.Err? <==> RowTargets(coin, buy) != {}) && (r.Ok? ==> r.value == params)
    ensures CfgTable(params).Some? ==> r == Ok(params["cfg" := JObj(AddRow(CfgTable(params).value, coin, buy, t))])
  {
    var table := CfgTable(params);
    var cfg: Object := if table.Some? then table.value else map[];
    RowTargetsMembers(coin, buy);
    for j := 0 to |buy|
      invariant cfg == AddRow(if table.Some? then table.value else map[], coin, buy[..j], t)
      invariant table.None? ==> forall j2 :: 0 <= j2 < j ==> buy[j2] == coin
    {
      assert buy[..j + 1][..j] == buy[..j];
      if coin != buy[j] {
        if table.None? {
          assert PairKey(coin, buy[j]) in RowTargets(coin, buy);
          return Err(NoCfgTable);
        }
        cfg := cfg[PairKey(coin, buy[j]) := JObj(GetConfig(coin, buy[j], t))];
      }
    }
    assert buy[..|buy|] == buy;
    if table.None? {
      return Ok(params);
    }
    return Ok(params["cfg" := JObj(cfg)]);
  }

  /** The `side == "rel"` branch. */
  method UpdateColumn(params: Object, coin: string, sell: seq<string>, t: TradeTerms) returns (r: Result<Object, ParamsError>)
    ensures CfgTable(params).None? ==> (r.Err? <==> ColumnTargets(sell, coin) != {}) && (r.Ok? ==> r.value == params)
    ensures CfgTable(params).Some? ==> r == Ok(params["cfg" := JObj(AddColumn(CfgTable(params).value, sell, coin, t))])
  {
    var table := CfgTable(params);
    var cfg: Object := if table.Some? then table.value else map[];
    ColumnTargetsMembers(sell, coin);
    for i := 0 to |sell|
      invariant cfg == AddColumn(if table.Some? then table.value else map[], sell[..i], coin, t)
      invariant table.None? ==> forall i2 :: 0 <= i2 < i ==> sell[i2] == coin
    {
      assert sell[..i + 1][..i] == sell[..i];
      if sell[i] != coin {
        if table.None? {
          assert PairKey(sell[i], coin) in ColumnTargets(sell, coin);
          return Err(NoCfgTable);
        }
        cfg := cfg[PairKey(sell[i], coin) := JObj(GetConfig(sell[i], coin, t))];
      }
    }
    assert sell[..|sell|] == sell;
    if table.None? {
      return Ok(params);
    }
    return Ok(params["cfg" := JObj(cfg)]);
  }

  /** `update_makerbot_coin_params`; a side other than "base" and "rel"
      changes nothing. */
  method UpdateCoinParams(params: Object, side: string, coin: string, buy: seq<string>, sell: seq<string>, t: TradeTerms)
    returns (r: Result<Object, ParamsError>)
    ensures CfgTable(params).None? ==>
      (r.Err? <==> CoinTargets(side, coin, buy, sell) != {}) && (r.Ok? ==> r.value == params)
    ensures CfgTable(params).Some? ==>
      r.Ok? && CfgReplaced(params, r.value, UpdatedCfg(CfgTable(params).value, side, coin, buy, sell, t))
  {
    if side == "base" {
      r := UpdateRow(params, coin, buy, t);
    } else if side == "rel" {
      r := UpdateColumn(params, coin, sell, t);
    } else {
      r := Ok(params);
      if CfgTable(params).Some? {
        assert params["cfg"] == JObj(CfgTable(params).value);
      }
    }
  }

  // --------------------------------------------------------- reload_settings

  datatype CoinLists = CoinLists(buy: seq<string>, sell: seq<string>)

  /** Append `x` unless it is listed already. */
  function AppendIfAbsent(coins: seq<string>, x: string): seq<string>
  {
    if x in coins then coins else coins + [x]
  }

  /** Existing order is kept, `x` ends up present exactly once, and no
      duplicate is introduced. */
  lemma AppendIfAbsentFacts(coins: seq<string>, x: string)
    ensures var r := AppendIfAbsent(coins, x);
      && |r| >= |coins| && r[..|coins|] == coins
      && SetOf(r) == SetOf(coins) + {x}
      && (Distinct(coins) ==> Distinct(r))
  {
    var r := AppendIfAbsent(coins, x);
    assert r[..|coins|] == coins;
  }

  /** `reload_settings(base, rel)` as written: an argument that is `None`
      or empty is skipped; base goes to `buy_coins`, rel to `sell_coins`. */
  function ReloadSettings(lists: CoinLists, base: string, rel: string): CoinLists
  {
    if base != "" && rel != "" then CoinLists(AppendIfAbsent(lists.buy, base), AppendIfAbsent(lists.sell, rel))
    else if base != "" then CoinLists(AppendIfAbsent(lists.buy, base), lists.sell)
    else if rel != "" then CoinLists(lists.buy, AppendIfAbsent(lists.sell, rel))
    else lists
  }

  /** `reload_settings` as its callers use it: the coin being sold (`base`)
      joins `sell_coins` and the coin being bought (`rel`) joins `buy_coins`. */
  function ReloadSettingsIntended(lists: CoinLists, base: string, rel: string): CoinLists
  {
    if base != "" && rel != "" then CoinLists(AppendIfAbsent(lists.buy, rel), AppendIfAbsent(lists.sell, base))
    else if base != "" then CoinLists(lists.buy, AppendIfAbsent(lists.sell, base))
    else if rel != "" then CoinLists(AppendIfAbsent(lists.buy, rel), lists.sell)
    else lists
  }

  /** Both lists keep their order, gain only the given coins and stay free
      of duplicates. */
  lemma ReloadSettingsFacts(lists: CoinLists, base: string, rel: string)
    ensures var r := ReloadSettings(lists, base, rel);
      && r.buy[..|lists.buy|] == lists.buy && r.sell[..|lists.sell|] == lists.sell
      && SetOf(r.buy) == SetOf(lists.buy) + (if base != "" then {base} else {})
      && SetOf(r.sell) == SetOf(lists.sell) + (if rel != "" then {rel} else {})
      && (Distinct(lists.buy) && Distinct(lists.sell) ==> Distinct(r.buy) && Distinct(r.sell))
  {
    AppendIfAbsentFacts(lists.buy, base);
    AppendIfAbsentFacts(lists.sell, rel);
    assert lists.buy[..|lists.buy|] == lists.buy && lists.sell[..|lists.sell|] == lists.sell;
  }

  /** As written, updating pair DOGE/KMD with buy coins [KMD] and sell coins
      [LTC] leaves settings from which the regenerated table lacks DOGE/KMD. */
  lemma ReloadSettingsLosesPair()
    ensures var r := ReloadSettings(CoinLists(["KMD"], ["LTC"]), "DOGE", "KMD");
      PairKey("DOGE", "KMD") !in PairKeys(r.sell, r.buy)
  {
    var r := ReloadSettings(CoinLists(["KMD"], ["LTC"]), "DOGE", "KMD");
    assert r == CoinLists(["KMD", "DOGE"], ["LTC", "KMD"]);
    PairKeysMembers(r.sell, r.buy);
    forall i, j | 0 <= i < |r.sell| && 0 <= j < |r.buy| && r.sell[i] != r.buy[j]
      ensures PairKey(r.sell[i], r.buy[j]) != PairKey("DOGE", "KMD")
    {
      PairKeyInjective(r.sell[i], r.buy[j], "DOGE", "KMD");
    }
  }

  /** The intended version makes the updated pair part of the regenerated
      table, keeps order and introduces no duplicate. */
  lemma ReloadSettingsIntendedAddsPair(lists: CoinLists, base: string, rel: string)
    requires base != "" && rel != "" && base != rel
    ensures var r := ReloadSettingsIntended(lists, base, rel);
      && PairKey(base, rel) in PairKeys(r.sell, r.buy)
      && r.buy[..|lists.buy|] == lists.buy && r.sell[..|lists.sell|] == lists.sell
      && (Distinct(lists.buy) && Distinct(lists.sell) ==> Distinct(r.buy) && Distinct(r.sell))
  {
    var r := ReloadSettingsIntended(lists, base, rel);
    AppendIfAbsentFacts(lists.buy, rel);
    AppendIfAbsentFacts(lists.sell, base);
    assert base in SetOf(r.sell) && rel in SetOf(r.buy);
    var i :| 0 <= i < |r.sell| && r.sell[i] == base;
    var j :| 0 <= j < |r.buy| && r.buy[j] == rel;
    PairKeysMembers(r.sell, r.buy);
  }

  // ------------------------------------------------------- swap counting

  /** `ERROR_EVENTS` */
  const ErrorEvents: seq<string> := [
    "StartFailed",
    "NegotiateFailed",
    "TakerFeeValidateFailed",
    "MakerPaymentTransactionFailed",
    "MakerPaymentDataSendFailed",
    "MakerPaymentWaitConfirmFailed",
    "TakerPaymentValidateFailed",
    "TakerPaymentWaitConfirmFailed",
    "TakerPaymentSpendFailed",
    "TakerPaymentSpendConfirmFailed",
    "MakerPaymentWaitRefundStarted",
    "MakerPaymentRefunded",
    "MakerPaymentRefundFailed"
  ]

  /** A swap, given by the types of its events, failed when one of them is
      an error event. */
  predicate SwapFailed(events: seq<string>)
  {
    exists k :: 0 <= k < |events| && events[k] in ErrorEvents
  }

  function FinishedCount(events: seq<string>): nat
  {
    if events == [] then 0
    else FinishedCount(events[..|events| - 1]) + (if events[|events| - 1] == "Finished" then 1 else 0)
  }

  function FailedCount(swaps: seq<seq<string>>): nat
  {
    if swaps == [] then 0
    else FailedCount(swaps[..|swaps| - 1]) + (if SwapFailed(swaps[|swaps| - 1]) then 1 else 0)
  }

  /** Failed swaps are excluded from the successful count. */
  function SuccessCount(swaps: seq<seq<string>>): nat
  {
    if swaps == [] then 0
    else
      var last := swaps[|swaps| - 1];
      SuccessCount(swaps[..|swaps| - 1]) + (if SwapFailed(last) then 0 else FinishedCount(last))
  }

  /** The counts of a list are the sums of those of its parts. */
  lemma {:induction false} CountsAdd(a: seq<seq<string>>, b: seq<seq<string>>)
    ensures FailedCount(a + b) == FailedCount(a) + FailedCount(b)
    ensures SuccessCount(a + b) == SuccessCount(a) + SuccessCount(b)
  {
    if b != [] {
      assert (a + b)[..|a + b| - 1] == a + b[..|b| - 1];
      assert (a + b)[|a + b| - 1] == b[|b| - 1];
      CountsAdd(a, b[..|b| - 1]);
    } else {
      assert a + b == a;
    }
  }

  /** Each failed swap counts once, and the other swaps count their
      "Finished" events. */
  lemma {:induction false} CountsOfOneSwap(events: seq<string>)
    ensures FailedCount([events]) == (if SwapFailed(events) then 1 else 0)
    ensures SuccessCount([events]) == (if SwapFailed(events) then 0 else FinishedCount(events))
  {
    assert [events][..0] == [];
  }

  /** At most one failure per swap, and a list of failed swaps counts no
      success. */
  lemma {:induction false} CountBounds(swaps: seq<seq<string>>)
    ensures FailedCount(swaps) <= |swaps|
    ensures (forall i :: 0 <= i < |swaps| ==> SwapFailed(swaps[i])) ==>
      FailedCount(swaps) == |swaps| && SuccessCount(swaps) == 0
  {
    if swaps != [] {
      var prefix := swaps[..|swaps| - 1];
      assert forall i :: 0 <= i < |prefix| ==> prefix[i] == swaps[i];
      CountBounds(prefix);
    }
  }

  /** The inner loop that looks for an error event and stops at the first. */
  method HasErrorEvent(events: seq<string>) returns (found: bool)
    ensures found == SwapFailed(events)
  {
    found := false;
    var k := 0;
    while k < |events|
      invariant 0 <= k <= |events|
      invariant forall k2 :: 0 <= k2 < k ==> events[k2] !in ErrorEvents
    {
      if events[k] in ErrorEvents {
        found := true;
        break;
      }
      k := k + 1;
    }
  }

  /** The inner loop that counts "Finished" events. */
  method CountFinished(events: seq<string>) returns (n: nat)
    ensures n == FinishedCount(events)
  {
    n := 0;
    for k := 0 to |events|
      invariant n == FinishedCount(events[..k])
    {
      assert events[..k + 1][..k] == events[..k];
      if events[k] == "Finished" {
        n := n + 1;
      }
    }
    assert events[..|events|] == events;
  }

  /** The counting part of `get_recent_swaps_info`, over the event types of
      each swap. */
  method CountSwaps(swaps: seq<seq<string>>) returns (successful: nat, failed: nat)
    ensures successful == SuccessCount(swaps) && failed == FailedCount(swaps)
  {
    successful, failed := 0, 0;
    for i := 0 to |swaps|
      invariant successful == SuccessCount(swaps[..i]) && failed == FailedCount(swaps[..i])
    {
      assert swaps[..i + 1][..i] == swaps[..i];
      var excluded := HasErrorEvent(swaps[i]);
      if excluded {
        failed := failed + 1;
      } else {
        var n := CountFinished(swaps[i]);
        successful := successful + n;
      }
    }
    assert swaps[..|swaps|] == swaps;
  }
}
