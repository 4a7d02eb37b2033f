/**
 * `ActivationManager`: the per-instance activation state, the polling of
 * task-based activations, and the coin and token activation flows.
 *
 * The RPC function the manager is given is an oracle (`Rpc.respond`) whose
 * reply to the n-th call depends on n, the method and the params; every call
 * is logged. The background polling thread runs to completion as an ordinary
 * call, whether or not the caller waits for it. Timestamps (`last_started`, `completed_at`, `failed_at`) and logging
 * are not part of the state.
 */
module ActivationManager {
  import opened Wrappers
  import opened Text
  import opened JsonData
  import opened CoinsConfig
  import opened RequestBuilder

  // --------------------------------------------------------------- the RPC

  /** What a call of `rpc_func` does: return a value or raise. */
  datatype Reply = Returned(value: Json) | Raised(message: string)

  /** The injected `rpc_func` with a log of the calls made through it. */
  class Rpc {
    const respond: (nat, string, Json) -> Reply
    var calls: seq<(string, Json)>

    constructor (respond: (nat, string, Json) -> Reply)
      ensures this.respond == respond && calls == []
    {
      this.respond := respond;
      calls := [];
    }

    method Call(name: string, params: Json) returns (reply: Reply)
      modifies this
      ensures calls == old(calls) + [(name, params)]
      ensures reply == respond(|old(calls)|, name, params)
    {
      reply := respond(|calls|, name, params);
      calls := calls + [(name, params)];
    }
  }

  /** `ACTIVATION_STATE`: one dict per `instance:TICKER` key. */
  class ActivationStore {
    var entries: map<string, Object>

    constructor ()
      ensures entries == map[]
    {
      entries := map[];
    }
  }

  // ------------------------------------------------------ keys and lookups

  /** `_state_key`: the instance name, a colon and the upper-cased ticker. */
  function StateKey(instance: string, ticker: string): string
  {
    instance + ":" + Upper(ticker)
  }

  /** Keys are case-insensitive in the ticker, and for instance names without
      a colon two keys agree exactly when instance and upper-cased ticker do. */
  lemma StateKeyFacts(i1: string, t1: string, i2: string, t2: string)
    requires ':' !in i1 && ':' !in i2
    ensures StateKey(i1, Upper(t1)) == StateKey(i1, t1)
    ensures StateKey(i1, t1) == StateKey(i2, t2) <==> i1 == i2 && Upper(t1) == Upper(t2)
  {
    UpperIdempotent(t1);
    if StateKey(i1, t1) == StateKey(i2, t2) {
      InstanceBeforeColon(i1, Upper(t1));
      InstanceBeforeColon(i2, Upper(t2));
      assert i1 == i2;
      var k := StateKey(i1, t1);
      assert Upper(t1) == k[|i1| + 1..];
      assert Upper(t2) == k[|i2| + 1..];
    }
  }

  /** The instance name is the text before the first colon of its keys. */
  lemma InstanceBeforeColon(instance: string, rest: string)
    requires ':' !in instance
    ensures FirstSegment(instance + ":" + rest, ':') == instance
  {
    var s := instance + ":" + rest;
    var r := FirstSegment(s, ':');
    assert s[|instance|] == ':';
    assert forall i :: 0 <= i < |instance| ==> s[i] == instance[i];
  }

  /** The entry under `key`, if any. */
  function EntryAt(entries: map<string, Object>, key: string): Option<Object>
  {
    if key in entries then Some(entries[key]) else None
  }

  /** Store an entry under `key`; no entry leaves the map as it is. */
  function Install(entries: map<string, Object>, key: string, entry: Option<Object>): map<string, Object>
  {
    if entry.Some? then entries[key := entry.value] else entries
  }

  /** The `status` of the entry under `key`; `None` without an entry or status. */
  function StatusAt(entries: map<string, Object>, key: string): Json
  {
    if key in entries then Get(entries[key], "status") else JNull
  }

  /** The status methods of the four task families. */
  const StatusMethods: set<string> := {"task::enable_eth::status", "task::enable_tendermint::status",
                                       "task::enable_utxo::status", "task::enable_sia::status"}

  /** Every method `activate_coin` can call: the listing, the init method of
      a family and a status method. */
  const CoinMethods: set<string> := {"get_enabled_coins", EthInit, TendermintInit, UtxoInit, SiaInit} + StatusMethods

  /** The init method of every family and every status method are coin methods. */
  lemma InitMethodIsCoinMethod(family: Json)
    ensures InitMethod(family) in CoinMethods && StatusMethods <= CoinMethods
  {
  }

  /** The requests of `activate_token` use methods `activate_coin` never
      calls, so the parent step cannot send the token's request. */
  lemma TokenMethodsNotCoinMethods()
    ensures "enable_erc20" !in CoinMethods && "enable_tendermint_token" !in CoinMethods
  {
    assert |"enable_erc20"| == 12 && |"enable_tendermint_token"| == 23;
    assert |TaskPrefix| == 6;
    assert UtxoInit[0] == 't' && "enable_tendermint_token"[0] == 'e';
  }

  /** `_status_method_for_init`: the status method of a task init method,
      found by substring. */
  function StatusMethodForInit(name: string): (r: Option<string>)
    ensures r.Some? ==> r.value in StatusMethods
  {
    if Contains(name, "enable_eth::init") then Some("task::enable_eth::status")
    else if Contains(name, "enable_tendermint::init") then Some("task::enable_tendermint::status")
    else if Contains(name, "enable_utxo::init") then Some("task::enable_utxo::status")
    else if Contains(name, "enable_sia::init") then Some("task::enable_sia::status")
    else None
  }

  /** Each init method the request builder produces has its own status
      method, so the "no status method" branch of `activate_coin` is never
      taken for the requests it builds. A character that occurs in an
      earlier pattern and not in the name refutes that pattern: 'h' occurs
      only in the ETH pattern, 'd' only in the Tendermint one and 'u' only
      in the UTXO one. */
  lemma StatusMethodOfEthInit()
    ensures StatusMethodForInit(EthInit) == Some("task::enable_eth::status")
  {
    EthInitHasPattern();
  }

  lemma EthInitHasPattern()
    ensures Contains(EthInit, "enable_eth::init")
  {
    ContainsTail(TaskPrefix, "enable_eth::init");
  }

  lemma StatusMethodOfTendermintInit()
    ensures StatusMethodForInit(TendermintInit) == Some("task::enable_tendermint::status")
  {
    NotContained(TendermintInit, "enable_eth::init", 'h');
    TendermintInitHasPattern();
  }

  lemma TendermintInitHasPattern()
    ensures Contains(TendermintInit, "enable_tendermint::init")
  {
    ContainsTail(TaskPrefix, "enable_tendermint::init");
  }

  lemma StatusMethodOfUtxoInit()
    ensures StatusMethodForInit(UtxoInit) == Some("task::enable_utxo::status")
  {
    UtxoInitLetters();
    NotContained(UtxoInit, "enable_eth::init", 'h');
    NotContained(UtxoInit, "enable_tendermint::init", 'd');
    UtxoInitHasPattern();
  }

  lemma UtxoInitHasPattern()
    ensures Contains(UtxoInit, "enable_utxo::init")
  {
    ContainsTail(TaskPrefix, "enable_utxo::init");
  }

  lemma StatusMethodOfSiaInit()
    ensures StatusMethodForInit(SiaInit) == Some("task::enable_sia::status")
  {
    SiaInitLetters();
    NotContained(SiaInit, "enable_eth::init", 'h');
    NotContained(SiaInit, "enable_tendermint::init", 'd');
    NotContained(SiaInit, "enable_utxo::init", 'u');
    SiaInitHasPattern();
  }

  lemma SiaInitHasPattern()
    ensures Contains(SiaInit, "enable_sia::init")
  {
    ContainsTail(TaskPrefix, "enable_sia::init");
  }

  lemma UtxoInitLetters()
    ensures 'h' !in UtxoInit && 'd' !in UtxoInit
  {
    assert UtxoInit == "task::enable_utxo::init";
  }

  lemma SiaInitLetters()
    ensures 'h' !in SiaInit && 'd' !in SiaInit && 'u' !in SiaInit
  {
    assert SiaInit == "task::enable_sia::init";
  }

  /** A method name without "::", such as the synchronous token methods, has none. */
  lemma NoStatusMethodWithoutColon(name: string)
    requires ':' !in name
    ensures StatusMethodForInit(name) == None
  {
    NotContained(name, "enable_eth::init", ':');
    NotContained(name, "enable_tendermint::init", ':');
    NotContained(name, "enable_utxo::init", ':');
    NotContained(name, "enable_sia::init", ':');
  }

  lemma ContainsTail(p: string, q: string)
    ensures Contains(p + q, q)
  {
    assert (p + q)[|p|..|p| + |q|] == q;
    ContainsAt(p + q, q, |p|);
  }

  // ----------------------------------------------------------- the polling

  const MaxPolls: nat := 40

  /** The error text of a poll that ran out of attempts: 5 seconds per attempt. */
  const TimeoutMessage: string := "Task polling timed out after " + IntToString(MaxPolls * 5) + " seconds"

  lemma TimeoutMessageText()
    ensures TimeoutMessage == "Task polling timed out after 200 seconds"
  {
    assert NatToString(200) == NatToString(20) + ['0'];
    assert NatToString(20) == NatToString(2) + ['0'];
  }

  /** The params of a status call: the task id, and the task is not to be
      forgotten once finished. */
  function StatusParams(taskId: Json): Json
  {
    JObj(map["task_id" := taskId, "forget_if_finished" := JBool(false)])
  }

  /** A reply as the source reads it: a falsy reply counts as an empty dict. */
  function ResponseOf(value: Json): Json
  {
    Or(value, JObj(map[]))
  }

  /** How one status response is read. */
  datatype PollOutcome = Completed | Failed(details: Json) | Pending

  /** A dict response whose `result` is not a dict is final; a dict `result`
      is final when its `status` (or, if that is falsy, its `state`) is
      `"Ok"` or `"Error"`; a response that is not a dict is not. */
  function Classify(response: Json): PollOutcome
  {
    if !response.JObj? then Pending
    else
      var result := Field(response, "result");
      if !result.JObj? then Completed
      else
        var status := Or(Get(result.fields, "status"), Get(result.fields, "state"));
        if status == JStr("Ok") then Completed
        else if status == JStr("Error") then Failed(GetOr(result.fields, "details", JStr("Unknown error")))
        else Pending
  }

  /** A reply that ends the polling. */
  predicate Decisive(reply: Reply)
  {
    reply.Returned? && !Classify(ResponseOf(reply.value)).Pending?
  }

  /** The state a decisive reply leaves behind. */
  function Verdict(reply: Reply): Json
  {
    if reply.Returned? && Classify(ResponseOf(reply.value)).Completed? then JStr("enabled") else JStr("failed")
  }

  /** One attempt: a raised call changes nothing; a returned one records the
      raw response and the attempt number and, when decisive, the verdict. */
  function PollStep(entry: Option<Object>, reply: Reply, count: nat): (r: (Option<Object>, bool))
    ensures reply.Raised? ==> r == (entry, false)
    ensures reply.Returned? ==>
      (r.0.Some? && Get(r.0.value, "poll_count") == JInt(count) &&
       Get(r.0.value, "status_raw") == ResponseOf(reply.value))
    ensures r.0.None? ==> entry.None?
    ensures r.1 <==> Decisive(reply)
    ensures r.1 ==>
      var outcome := Classify(ResponseOf(reply.value));
      && Get(r.0.value, "status") == Verdict(reply)
      && Get(r.0.value, "result") == ResponseOf(reply.value)
      && (outcome.Failed? ==> Get(r.0.value, "error") == outcome.details)
    ensures !r.1 && entry.Some? ==> Get(r.0.value, "status") == Get(entry.value, "status")
  {
    match reply
    case Raised(_) => (entry, false)
    case Returned(v) =>
      var response := ResponseOf(v);
      var noted := (if entry.Some? then entry.value else map[]) +
        map["status_raw" := response, "poll_count" := JInt(count)];
      match Classify(response)
      case Completed => (Some(noted + map["status" := JStr("enabled"), "result" := response]), true)
      case Failed(details) =>
        (Some(noted + map["status" := JStr("failed"), "result" := response, "error" := details]), true)
      case Pending => (Some(noted), false)
  }

  /** An empty or missing status response is read as success. */
  lemma EmptyResponseCompletes(entry: Option<Object>, count: nat)
    ensures Decisive(Returned(JObj(map[]))) && Decisive(Returned(JNull))
    ensures Get(PollStep(entry, Returned(JObj(map[])), count).0.value, "status") == JStr("enabled")
    ensures Get(PollStep(entry, Returned(JNull), count).0.value, "status") == JStr("enabled")
  {
  }

  /** The result of running the attempts whose replies are given, up to the
      first decisive one. */
  datatype PollRun = PollRun(entry: Option<Object>, calls: nat, finished: bool)

  /** The polling as a function of the replies, defined attempt by attempt. */
  function Polled(entry: Option<Object>, replies: seq<Reply>): (r: PollRun)
    ensures r.calls <= |replies|
    ensures r.entry.None? ==> entry.None?
    ensures !r.finished ==> r.calls == |replies| && forall i :: 0 <= i < |replies| ==> !Decisive(replies[i])
    ensures r.finished ==>
      && 0 < r.calls && r.entry.Some?
      && Decisive(replies[r.calls - 1])
      && (forall i :: 0 <= i < r.calls - 1 ==> !Decisive(replies[i]))
      && Get(r.entry.value, "status") == Verdict(replies[r.calls - 1])
      && Get(r.entry.value, "result") == ResponseOf(replies[r.calls - 1].value)
    ensures !r.finished && entry.Some? ==> r.entry.Some? && Get(r.entry.value, "status") == Get(entry.value, "status")
    decreases |replies|
  {
    if replies == [] then PollRun(entry, 0, false)
    else
      var prior := replies[..|replies| - 1];
      var prev := Polled(entry, prior);
      assert forall i :: 0 <= i < |prior| ==> prior[i] == replies[i];
      if prev.finished then prev
      else
        var step := PollStep(prev.entry, replies[|replies| - 1], |replies| - 1);
        PollRun(step.0, |replies|, step.1)
  }

  /** One more attempt after an unfinished run. */
  lemma PolledNext(entry: Option<Object>, replies: seq<Reply>, count: nat, current: Option<Object>)
    requires count < |replies| && Polled(entry, replies[..count]) == PollRun(current, count, false)
    ensures var step := PollStep(current, replies[count], count);
      Polled(entry, replies[..count + 1]) == PollRun(step.0, count + 1, step.1)
  {
    assert replies[..count + 1][..count] == replies[..count];
  }

  /** Once finished, later replies do not matter. */
  lemma {:induction false} PolledStable(entry: Option<Object>, replies: seq<Reply>, k: nat)
    requires k <= |replies| && Polled(entry, replies[..k]).finished
    ensures Polled(entry, replies) == Polled(entry, replies[..k])
    decreases |replies| - k
  {
    if k < |replies| {
      var prior := replies[..|replies| - 1];
      assert prior[..k] == replies[..k];
      PolledStable(entry, prior, k);
    } else {
      assert replies[..k] == replies;
    }
  }

  /** An Error status is recorded with its details, "Unknown error" when it has none. */
  lemma PolledError(entry: Option<Object>, replies: seq<Reply>)
    requires Polled(entry, replies).finished
    requires var last := replies[Polled(entry, replies).calls - 1];
      Classify(ResponseOf(last.value)).Failed?
    ensures var run := Polled(entry, replies);
      var result := Field(ResponseOf(replies[run.calls - 1].value), "result");
      && Get(run.entry.value, "status") == JStr("failed")
      && Get(run.entry.value, "error") == GetOr(result.fields, "details", JStr("Unknown error"))
    decreases |replies|
  {
    var prior := replies[..|replies| - 1];
    var prev := Polled(entry, prior);
    if prev.finished {
      assert prior[prev.calls - 1] == replies[prev.calls - 1];
      PolledError(entry, prior);
    }
  }

  /** The replies of the status calls, one per attempt. */
  function StatusReplies(respond: (nat, string, Json) -> Reply, base: nat, statusMethod: string,
                         taskId: Json, n: nat): (rs: seq<Reply>)
    ensures |rs| == n
  {
    seq(n, i requires 0 <= i < n => respond(base + i, statusMethod, StatusParams(taskId)))
  }

  /** `n` identical status calls. */
  function StatusCalls(statusMethod: string, taskId: Json, n: nat): (cs: seq<(string, Json)>)
    ensures |cs| == n && forall i :: 0 <= i < n ==> cs[i] == (statusMethod, StatusParams(taskId))
  {
    seq(n, _ => (statusMethod, StatusParams(taskId)))
  }

  lemma StatusCallsNext(statusMethod: string, taskId: Json, n: nat)
    ensures StatusCalls(statusMethod, taskId, n) + [(statusMethod, StatusParams(taskId))]
      == StatusCalls(statusMethod, taskId, n + 1)
  {
  }

  /** Storing a second entry under the same key overrides the first. */
  lemma InstallTwice(entries: map<string, Object>, key: string, first: Option<Object>, second: Option<Object>)
    requires first.Some? ==> second.Some?
    requires first.None? ==> key !in entries || second.Some?
    ensures Install(Install(entries, key, first), key, second) == Install(entries, key, second) ||
      (first.None? && second.None?)
  {
  }

  /** The entry after the attempts ran out; without an entry the update itself fails. */
  function TimedOut(entry: Option<Object>): Option<Object>
  {
    if entry.Some? then Some(entry.value + map["status" := JStr("timeout"), "error" := JStr(TimeoutMessage)]) else None
  }

  /** The parent step of `activate_token`: the parent's result and the
      calls and entries its activation left. */
  datatype ParentStep = ParentStep(result: ActivationResult, calls: seq<(string, Json)>, entries: map<string, Object>)

  /** What `activate_coin` and `activate_token` return. */
  datatype ActivationResult = ActivationResult(
    success: bool, response: Json, taskId: Json, error: Json, alreadyEnabled: bool)

  const AlreadyEnabledResponse: Json := JObj(map["status" := JStr("already_enabled")])

  const AlreadyEnabledEntry: Object := map["status" := JStr("enabled"), "result" := AlreadyEnabledResponse]

  function FailedEntry(message: string): Object
  {
    map["status" := JStr("failed"), "error" := JStr(message)]
  }

  /** `get_enabled_coins` lists the ticker, compared upper-cased. */
  predicate ListedAsEnabled(listing: Json, tickerUpper: string)
  {
    listing.JObj? && "result" in listing.fields && listing.fields["result"].JArr? &&
    JStr(tickerUpper) in Collect(listing.fields["result"].items, EnabledTicker)
  }

  /** The upper-cased ticker of a dict entry of the listing; a missing
      ticker reads as the empty string. */
  function EnabledTicker(coin: Json): Option<Json>
  {
    if !coin.JObj? then None
    else
      var t := GetOr(coin.fields, "ticker", JStr(""));
      if t.JStr? then Some(JStr(Upper(t.s))) else None
  }

  /** The ticker a dict entry of the listing is upper-cased from. */
  function ListedTicker(coin: Json): Json
  {
    GetOr(AsObject(coin), "ticker", JStr(""))
  }

  /** The listing's list of tickers is built by upper-casing the ticker of
      every dict entry; the first dict whose ticker is not a string makes
      that raise an `AttributeError`, whose text is returned here. */
  function ListingFault(coins: seq<Json>): (r: Option<string>)
    ensures r.None? <==> forall i :: 0 <= i < |coins| && coins[i].JObj? ==> ListedTicker(coins[i]).JStr?
    ensures r.Some? ==> (exists i :: 0 <= i < |coins| && coins[i].JObj? && !ListedTicker(coins[i]).JStr? &&
                           r.value == "'" + PyTypeName(ListedTicker(coins[i])) + "' object has no attribute 'upper'")
  {
    if coins == [] then None
    else if coins[0].JObj? && !ListedTicker(coins[0]).JStr? then
      Some("'" + PyTypeName(ListedTicker(coins[0])) + "' object has no attribute 'upper'")
    else
      var rest := ListingFault(coins[1..]);
      assert forall i :: 1 <= i < |coins| ==> coins[i] == coins[1..][i - 1];
      rest
  }

  /** The error raised while reading a `get_enabled_coins` reply, if any:
      only a dict with a list `result` is read. */
  function ListingError(listing: Json): Option<string>
  {
    if listing.JObj? && "result" in listing.fields && listing.fields["result"].JArr?
    then ListingFault(listing.fields["result"].items)
    else None
  }

  /** Whether the `raw_response` of an error reply mentions `marker`: a
      substring of a string, an item of a list or a key of a dict. */
  predicate Mentions(raw: Json, marker: string)
  {
    match raw
    case JStr(s) => Contains(s, marker)
    case JArr(items) => JStr(marker) in items
    case JObj(fields) => marker in fields
    case _ => false
  }

  /** The values Python's `in` can search. */
  predicate Searchable(raw: Json)
  {
    raw.JStr? || raw.JArr? || raw.JObj?
  }

  /** An error reply that carries `raw_response`. */
  predicate HasRawResponse(response: Json)
  {
    response.JObj? && "error" in response.fields && "raw_response" in response.fields
  }

  /** The daemon's answer that the coin is active already. */
  predicate AlreadyActivatedError(response: Json)
  {
    && HasRawResponse(response)
    && var raw := response.fields["raw_response"];
       Searchable(raw) && (Mentions(raw, "CoinIsAlreadyActivated") || Mentions(raw, "is activated already"))
  }

  /** Searching a `raw_response` that is none of those raises a `TypeError`,
      with this text. */
  function MarkerFault(response: Json): (r: Option<string>)
    ensures r.Some? <==> HasRawResponse(response) && !Searchable(response.fields["raw_response"])
    ensures r.Some? ==> !AlreadyActivatedError(response)
  {
    if HasRawResponse(response) && !Searchable(response.fields["raw_response"])
    then Some("argument of type '" + PyTypeName(response.fields["raw_response"]) + "' is not iterable")
    else None
  }

  /** `result.task_id` of an init response; `None` when absent. */
  function TaskIdOf(response: Json): Json
  {
    var result := Field(response, "result");
    if result.JObj? then Get(result.fields, "task_id") else JNull
  }

  /** Every entry other than `key` is as it was. */
  predicate OnlyKeyChanged(before: map<string, Object>, after: map<string, Object>, key: string)
  {
    after - {key} == before - {key}
  }

  /** A change confined to one key leaves every other entry as it was. */
  lemma OtherEntryKept(before: map<string, Object>, after: map<string, Object>, key: string, other: string)
    requires OnlyKeyChanged(before, after, key) && other != key
    ensures EntryAt(after, other) == EntryAt(before, other)
  {
    assert other in after <==> other in after - {key};
    assert other in before <==> other in before - {key};
    if other in after {
      assert after[other] == (after - {key})[other];
      assert before[other] == (before - {key})[other];
    }
  }

  /** Two maps that differ only at `key` agree once `key` is overwritten. */
  lemma OverwriteOnlyKey(before: map<string, Object>, after: map<string, Object>, key: string, v: Object)
    requires OnlyKeyChanged(before, after, key)
    ensures before[key := v] == after[key := v]
  {
    forall k | k != key
      ensures (k in before <==> k in after) && (k in before ==> before[k] == after[k])
    {
      OtherEntryKept(before, after, key, k);
    }
  }

  lemma InstallOnlyKey(entries: map<string, Object>, key: string, entry: Option<Object>)
    ensures OnlyKeyChanged(entries, Install(entries, key, entry), key)
  {
  }

  lemma UpdateOnlyKey(entries: map<string, Object>, key: string, entry: Object)
    ensures OnlyKeyChanged(entries, entries[key := entry], key)
  {
  }

  /** The parent to activate: a non-empty override, else the configured parent. */
  function ParentChoice(parentOverride: Option<string>, parent: Json): (r: Json)
    ensures parentOverride.Some? && parentOverride.value != "" ==> r == JStr(parentOverride.value)
    ensures parentOverride.None? || parentOverride.value == "" ==> r == parent
  {
    if parentOverride.Some? && parentOverride.value != "" then JStr(parentOverride.value) else parent
  }

  /** The entry with its status and one more field overwritten. */
  function Mark(entry: Object, status: string, field: string, value: Json): (r: Object)
    requires field != "status"
    ensures Get(r, "status") == JStr(status) && Get(r, field) == value
  {
    entry + map["status" := JStr(status), field := value]
  }

  function FailureResult(response: Json, message: string): ActivationResult
  {
    ActivationResult(false, response, JNull, JStr(message), false)
  }

  const AlreadyEnabledResult: ActivationResult := ActivationResult(true, AlreadyEnabledResponse, JNull, JNull, true)

  // ------------------------------------------------------------ the manager

  class Manager {
    const config: CoinsConfigManager
    const instanceName: string
    const rpc: Rpc
    const store: ActivationStore

    constructor (config: CoinsConfigManager, instanceName: string, rpc: Rpc, store: ActivationStore)
      ensures this.config == config && this.instanceName == instanceName
      ensures this.rpc == rpc && this.store == store
    {
      this.config := config;
      this.instanceName := instanceName;
      this.rpc := rpc;
      this.store := store;
    }

    /** `is_coin_enabled` */
    predicate IsCoinEnabled(ticker: string)
      reads store
    {
      StatusAt(store.entries, StateKey(instanceName, Upper(ticker))) == JStr("enabled")
    }

    /** `get_activation_status` */
    function GetActivationStatus(ticker: string): (status: Object)
      reads store
      ensures StateKey(instanceName, ticker) in store.entries ==> status == store.entries[StateKey(instanceName, ticker)]
      ensures StateKey(instanceName, ticker) !in store.entries ==> status == map["status" := JStr("not_started")]
    {
      UpperIdempotent(ticker);
      var key := StateKey(instanceName, Upper(ticker));
      if key in store.entries then store.entries[key] else map["status" := JStr("not_started")]
    }

    /** One attempt of `_poll_task`: a status call and the update of the entry. */
    method PollOnce(key: string, statusMethod: string, taskId: Json, count: nat) returns (done: bool)
      modifies store, rpc
      ensures rpc.calls == old(rpc.calls) + [(statusMethod, StatusParams(taskId))]
      ensures var step := PollStep(EntryAt(old(store.entries), key),
                                   rpc.respond(|old(rpc.calls)|, statusMethod, StatusParams(taskId)), count);
        && done == step.1
        && EntryAt(store.entries, key) == step.0
        && store.entries == Install(old(store.entries), key, step.0)
    {
      var reply := rpc.Call(statusMethod, StatusParams(taskId));
      var step := PollStep(EntryAt(store.entries, key), reply, count);
      store.entries := Install(store.entries, key, step.0);
      done := step.1;
    }

    /** One attempt of `_poll_task` within the run that started from
        `entries0` and `calls0` and meets the status replies `replies`. */
    method PollAttempt(key: string, statusMethod: string, taskId: Json, count: nat,
                       ghost entries0: map<string, Object>, ghost calls0: seq<(string, Json)>, ghost replies: seq<Reply>)
      returns (done: bool)
      requires count < MaxPolls
      requires replies == StatusReplies(rpc.respond, |calls0|, statusMethod, taskId, MaxPolls)
      requires rpc.calls == calls0 + StatusCalls(statusMethod, taskId, count)
      requires Polled(EntryAt(entries0, key), replies[..count]) == PollRun(EntryAt(store.entries, key), count, false)
      requires store.entries == Install(entries0, key, EntryAt(store.entries, key))
      modifies store, rpc
      ensures rpc.calls == calls0 + StatusCalls(statusMethod, taskId, count + 1)
      ensures Polled(EntryAt(entries0, key), replies[..count + 1]) == PollRun(EntryAt(store.entries, key), count + 1, done)
      ensures store.entries == Install(entries0, key, EntryAt(store.entries, key))
    {
      ghost var current := EntryAt(store.entries, key);
      done := PollOnce(key, statusMethod, taskId, count);
      assert rpc.respond(|calls0| + count, statusMethod, StatusParams(taskId)) == replies[count];
      StatusCallsNext(statusMethod, taskId, count);
      PolledNext(EntryAt(entries0, key), replies, count, current);
      InstallTwice(entries0, key, current, EntryAt(store.entries, key));
    }

    /** The attempts of `_poll_task`: status calls until a decisive reply or
        until `MaxPolls` calls were made. */
    method PollAttempts(key: string, statusMethod: string, taskId: Json) returns (count: nat, done: bool)
      modifies store, rpc
      ensures count <= MaxPolls && (!done ==> count == MaxPolls)
      ensures rpc.calls == old(rpc.calls) + StatusCalls(statusMethod, taskId, count)
      ensures Polled(EntryAt(old(store.entries), key),
                     StatusReplies(rpc.respond, |old(rpc.calls)|, statusMethod, taskId, MaxPolls)[..count])
        == PollRun(EntryAt(store.entries, key), count, done)
      ensures store.entries == Install(old(store.entries), key, EntryAt(store.entries, key))
    {
      ghost var entries0 := store.entries;
      ghost var calls0 := rpc.calls;
      ghost var entry0 := EntryAt(entries0, key);
      ghost var replies := StatusReplies(rpc.respond, |calls0|, statusMethod, taskId, MaxPolls);
      assert replies[..0] == [];
      count, done := 0, false;
      while count < MaxPolls
        invariant 0 <= count <= MaxPolls
        invariant rpc.calls == calls0 + StatusCalls(statusMethod, taskId, count)
        invariant Polled(entry0, replies[..count]) == PollRun(EntryAt(store.entries, key), count, false)
        invariant store.entries == Install(entries0, key, EntryAt(store.entries, key))
      {
        done := PollAttempt(key, statusMethod, taskId, count, entries0, calls0, replies);
        count := count + 1;
        if done {
          return;
        }
      }
    }

    /** `_poll_task`: at most `MaxPolls` status calls, stopping at the first
        decisive reply; a poll that never gets one records a timeout. Only
        the ticker's own entry changes. */
    method PollTask(ticker: string, statusMethod: string, taskId: Json)
      modifies store, rpc
      ensures var key := StateKey(instanceName, ticker);
        var run := Polled(EntryAt(old(store.entries), key),
                          StatusReplies(rpc.respond, |old(rpc.calls)|, statusMethod, taskId, MaxPolls));
        && rpc.calls == old(rpc.calls) + StatusCalls(statusMethod, taskId, run.calls)
        && store.entries == Install(old(store.entries), key, if run.finished then run.entry else TimedOut(run.entry))
      ensures |old(rpc.calls)| <= |rpc.calls| <= |old(rpc.calls)| + MaxPolls
      ensures rpc.calls[..|old(rpc.calls)|] == old(rpc.calls)
      ensures forall i :: |old(rpc.calls)| <= i < |rpc.calls| ==> rpc.calls[i] == (statusMethod, StatusParams(taskId))
      ensures OnlyKeyChanged(old(store.entries), store.entries, StateKey(instanceName, ticker))
    {
      var key := StateKey(instanceName, ticker);
      ghost var entry0 := EntryAt(store.entries, key);
      ghost var replies := StatusReplies(rpc.respond, |rpc.calls|, statusMethod, taskId, MaxPolls);
      var count, done := PollAttempts(key, statusMethod, taskId);
      assert rpc.calls[..|old(rpc.calls)|] == old(rpc.calls);
      if done {
        PolledStable(entry0, replies, count);
        InstallOnlyKey(old(store.entries), key, EntryAt(store.entries, key));
        return;
      }
      assert replies[..count] == replies;
      var last := EntryAt(store.entries, key);
      store.entries := Install(store.entries, key, TimedOut(last));
      InstallTwice(old(store.entries), key, last, TimedOut(last));
      InstallOnlyKey(old(store.entries), key, TimedOut(last));
    }

    /** The `except` clause of both activations: the entry is replaced by a failure. */
    method RecordFailure(key: string, message: string) returns (result: ActivationResult)
      modifies store
      ensures store.entries == old(store.entries)[key := FailedEntry(message)]
      ensures result == FailureResult(JObj(map[]), message)
      ensures OnlyKeyChanged(old(store.entries), store.entries, key)
    {
      UpdateOnlyKey(store.entries, key, FailedEntry(message));
      store.entries := store.entries[key := FailedEntry(message)];
      result := FailureResult(JObj(map[]), message);
    }

    /** The task branch of `activate_coin` once a task id came back: find the
        status method, poll, and report the final state when asked to wait. */
    method FollowTask(ticker: string, request: ActivationRequest, response: Json, taskId: Json, waitForCompletion: bool)
      returns (result: ActivationResult)
      requires StateKey(instanceName, ticker) in store.entries
      modifies store, rpc
      ensures !result.alreadyEnabled
      ensures var key := StateKey(instanceName, ticker);
        var statusMethod := StatusMethodForInit(request.rpcMethod);
        && |old(rpc.calls)| <= |rpc.calls| <= |old(rpc.calls)| + MaxPolls
        && rpc.calls[..|old(rpc.calls)|] == old(rpc.calls)
        && (forall i :: |old(rpc.calls)| <= i < |rpc.calls| ==>
              statusMethod.Some? && rpc.calls[i] == (statusMethod.value, StatusParams(taskId)))
        && OnlyKeyChanged(old(store.entries), store.entries, key)
        && (statusMethod.None? ==>
              && result == FailureResult(response, "No status method available for task")
              && StatusAt(store.entries, key) == JStr("failed")
              && rpc.calls == old(rpc.calls))
        && (statusMethod.Some? && !waitForCompletion ==> result == ActivationResult(true, response, taskId, JNull, false))
        && (statusMethod.Some? && waitForCompletion ==>
              && result.taskId == taskId
              && (result.success <==> StatusAt(store.entries, key) == JStr("enabled")))
    {
      var key := StateKey(instanceName, ticker);
      var statusMethod := StatusMethodForInit(request.rpcMethod);
      if statusMethod.None? {
        store.entries := store.entries[key := Mark(store.entries[key], "failed", "error", JStr("No status method available"))];
        return FailureResult(response, "No status method available for task");
      }
      store.entries := store.entries[key := store.entries[key] +
        map["task_id" := taskId, "status_method" := JStr(statusMethod.value)]];
      ghost var before := store.entries;
      ghost var calls0 := rpc.calls;
      PollTask(ticker, statusMethod.value, taskId);
      if !waitForCompletion {
        return ActivationResult(true, response, taskId, JNull, false);
      }
      var final := if key in store.entries then store.entries[key] else map[];
      var finalStatus := Get(final, "status");
      if finalStatus == JStr("enabled") {
        return ActivationResult(true, GetOr(final, "result", JObj(map[])), taskId, JNull, false);
      }
      var error := GetOr(final, "error", JStr("Activation failed with status: " + PyStr(finalStatus)));
      return ActivationResult(false, GetOr(final, "result", JObj(map[])), taskId, error, false);
    }

    /** How `activate_coin` reads the reply to its request: a task id to
        follow, or for a synchronous request a truthy `result`. */
    method ReadInitResponse(ticker: string, request: ActivationRequest, response: Json, waitForCompletion: bool)
      returns (result: ActivationResult)
      requires StateKey(instanceName, ticker) in store.entries
      modifies store, rpc
      ensures !result.alreadyEnabled
      ensures var key := StateKey(instanceName, ticker);
        var n := |old(rpc.calls)|;
        && n <= |rpc.calls| <= n + MaxPolls && rpc.calls[..n] == old(rpc.calls)
        && (forall i :: n <= i < |rpc.calls| ==> rpc.calls[i].0 in StatusMethods)
        && OnlyKeyChanged(old(store.entries), store.entries, key)
        && (waitForCompletion ==> (result.success <==> StatusAt(store.entries, key) == JStr("enabled")))
        && (request.isTask && TaskIdOf(response) == JNull ==>
              && result == FailureResult(response, "No task ID returned from activation request")
              && StatusAt(store.entries, key) == JStr("failed")
              && rpc.calls == old(rpc.calls))
        && (request.isTask && TaskIdOf(response) != JNull ==>
              var statusMethod := StatusMethodForInit(request.rpcMethod);
              && (statusMethod.None? ==>
                    && result == FailureResult(response, "No status method available for task")
                    && StatusAt(store.entries, key) == JStr("failed")
                    && rpc.calls == old(rpc.calls))
              && (statusMethod.Some? ==>
                    && result.taskId == TaskIdOf(response)
                    && (forall i :: n <= i < |rpc.calls| ==>
                          rpc.calls[i] == (statusMethod.value, StatusParams(TaskIdOf(response))))
                    && (!waitForCompletion ==> result == ActivationResult(true, response, TaskIdOf(response), JNull, false))))
        && (!request.isTask ==>
              && (result.success <==> response.JObj? && Truthy(Field(response, "result")))
              && result.response == response
              && rpc.calls == old(rpc.calls))
    {
      var key := StateKey(instanceName, ticker);
      if request.isTask {
        var taskId := TaskIdOf(response);
        if taskId == JNull {
          store.entries := store.entries[key := Mark(store.entries[key], "failed", "error", JStr("No task ID returned"))];
          return FailureResult(response, "No task ID returned from activation request");
        }
        result := FollowTask(ticker, request, response, taskId, waitForCompletion);
      } else if response.JObj? && Truthy(Field(response, "result")) {
        store.entries := store.entries[key := Mark(store.entries[key], "enabled", "result", response)];
        return ActivationResult(true, response, JNull, JNull, false);
      } else {
        store.entries := store.entries[key := Mark(store.entries[key], "failed", "result", response)];
        return FailureResult(response, "Activation request failed");
      }
    }

    /** The part of `activate_coin` after the request is built: record it as
        in progress, send it, and read the reply. */
    method SendActivation(ticker: string, request: ActivationRequest, waitForCompletion: bool)
      returns (result: ActivationResult)
      modifies store, rpc
      ensures var key := StateKey(instanceName, Upper(ticker));
        var n := |old(rpc.calls)|;
        var reply := rpc.respond(n, request.rpcMethod, request.params);
        && n < |rpc.calls| && rpc.calls[..n] == old(rpc.calls) && rpc.calls[n] == (request.rpcMethod, request.params)
        && (forall i :: n < i < |rpc.calls| ==> rpc.calls[i].0 in StatusMethods)
        && OnlyKeyChanged(old(store.entries), store.entries, key)
        && ReplyHandled(ticker, request, waitForCompletion, reply, n + 1, old(store.entries), |rpc.calls|, store.entries, result)
    {
      var tickerUpper := Upper(ticker);
      var key := StateKey(instanceName, tickerUpper);
      store.entries := store.entries[key := map["status" := JStr("in_progress"), "method" := JStr(request.rpcMethod)]];
      var reply := rpc.Call(request.rpcMethod, request.params);
      ghost var calls1 := rpc.calls;
      result := HandleReply(ticker, request, reply, waitForCompletion, old(store.entries));
      assert rpc.calls[..|calls1|] == calls1;
      assert rpc.calls[..|calls1|][..|old(rpc.calls)|] == old(rpc.calls);
      assert rpc.calls[|old(rpc.calls)|] == calls1[|old(rpc.calls)|];
    }

    /** How `activate_coin` ends once `request` got `reply`, from the
        entries `entries0` of before the request, with the calls up to `n`
        made and `m` made at the end: a raise, or a `raw_response` that
        cannot be searched, records a failure with no further call; the
        daemon's "already activated" answer records the coin as enabled.
        Any other reply is read as ReadInitResponse states: a task without
        a task id fails, a task with one is polled through its status
        method, and a synchronous request succeeds for a truthy `result`.
        When the caller waits, success means the entry ends enabled. */
    ghost predicate ReplyHandled(ticker: string, request: ActivationRequest, waitForCompletion: bool,
                                 reply: Reply, n: nat, entries0: map<string, Object>, m: nat,
                                 entries1: map<string, Object>, result: ActivationResult)
    {
      var key := StateKey(instanceName, Upper(ticker));
      var response := if reply.Returned? then ResponseOf(reply.value) else JNull;
      var read := reply.Returned? && MarkerFault(response).None? && !AlreadyActivatedError(response);
      var statusMethod := StatusMethodForInit(request.rpcMethod);
      && (read ==> !result.alreadyEnabled && m <= n + MaxPolls)
      && (read && request.isTask && TaskIdOf(response) == JNull ==>
            && result == FailureResult(response, "No task ID returned from activation request")
            && StatusAt(entries1, key) == JStr("failed")
            && m == n)
      && (read && request.isTask && TaskIdOf(response) != JNull && statusMethod.None? ==>
            && result == FailureResult(response, "No status method available for task")
            && StatusAt(entries1, key) == JStr("failed")
            && m == n)
      && (read && request.isTask && TaskIdOf(response) != JNull && statusMethod.Some? ==>
            && result.taskId == TaskIdOf(response)
            && (!waitForCompletion ==> result == ActivationResult(true, response, TaskIdOf(response), JNull, false)))
      && (read && !request.isTask ==>
            && (result.success <==> response.JObj? && Truthy(Field(response, "result")))
            && result.response == response
            && m == n)
      && (waitForCompletion ==> (result.success <==> StatusAt(entries1, key) == JStr("enabled")))
      && (reply.Raised? ==>
            && result == FailureResult(JObj(map[]), "Failed to activate " + ticker + ": " + reply.message)
            && entries1 == entries0[key := FailedEntry(result.error.s)]
            && m == n)
      && (reply.Returned? && MarkerFault(ResponseOf(reply.value)).Some? ==>
            && result == FailureResult(JObj(map[]), "Failed to activate " + ticker + ": " +
                                       MarkerFault(ResponseOf(reply.value)).value)
            && entries1 == entries0[key := FailedEntry(result.error.s)]
            && m == n)
      && (reply.Returned? && AlreadyActivatedError(ResponseOf(reply.value)) ==>
            && result == AlreadyEnabledResult
            && m == n)
      && (result.alreadyEnabled ==>
            result == AlreadyEnabledResult && key in entries1 && entries1[key] == AlreadyEnabledEntry)
    }

    /** The reply part of `SendActivation`. */
    method HandleReply(ticker: string, request: ActivationRequest, reply: Reply, waitForCompletion: bool,
                       ghost entries0: map<string, Object>)
      returns (result: ActivationResult)
      requires StateKey(instanceName, Upper(ticker)) in store.entries
      requires OnlyKeyChanged(entries0, store.entries, StateKey(instanceName, Upper(ticker)))
      modifies store, rpc
      ensures var n := |old(rpc.calls)|;
        && n <= |rpc.calls| && rpc.calls[..n] == old(rpc.calls)
        && (forall i :: n <= i < |rpc.calls| ==> rpc.calls[i].0 in StatusMethods)
        && OnlyKeyChanged(entries0, store.entries, StateKey(instanceName, Upper(ticker)))
        && ReplyHandled(ticker, request, waitForCompletion, reply, n, entries0, |rpc.calls|, store.entries, result)
    {
      var tickerUpper := Upper(ticker);
      var key := StateKey(instanceName, tickerUpper);
      if reply.Raised? {
        OverwriteOnlyKey(entries0, store.entries, key, FailedEntry("Failed to activate " + ticker + ": " + reply.message));
        result := RecordFailure(key, "Failed to activate " + ticker + ": " + reply.message);
        return;
      }
      var response := ResponseOf(reply.value);
      var fault := MarkerFault(response);
      if fault.Some? {
        OverwriteOnlyKey(entries0, store.entries, key, FailedEntry("Failed to activate " + ticker + ": " + fault.value));
        result := RecordFailure(key, "Failed to activate " + ticker + ": " + fault.value);
        return;
      }
      if AlreadyActivatedError(response) {
        store.entries := store.entries[key := AlreadyEnabledEntry];
        return AlreadyEnabledResult;
      }
      result := ReadInitResponse(tickerUpper, request, response, waitForCompletion);
    }

    /** Build the request of `activate_coin` and send it; an unsupported
        protocol fails before any call. */
    method BuildAndSend(ticker: string, enableHd: bool, waitForCompletion: bool) returns (result: ActivationResult)
      modifies store, rpc
      ensures var key := StateKey(instanceName, Upper(ticker));
        var n := |old(rpc.calls)|;
        && OnlyKeyChanged(old(store.entries), store.entries, key)
        && n <= |rpc.calls| && rpc.calls[..n] == old(rpc.calls)
        && (waitForCompletion ==> (result.success <==> StatusAt(store.entries, key) == JStr("enabled")))
        && (result.alreadyEnabled ==>
              result == AlreadyEnabledResult && key in store.entries && store.entries[key] == AlreadyEnabledEntry)
        && (forall i :: n <= i < |rpc.calls| ==> rpc.calls[i].0 in CoinMethods)
      ensures Dispatched(ticker, enableHd, waitForCompletion, |old(rpc.calls)|, old(store.entries),
                         rpc.calls, store.entries, result)
    {
      var key := StateKey(instanceName, Upper(ticker));
      var built := BuildActivationRequest(config, ticker, enableHd);
      if built.Err? {
        result := RecordFailure(key, "Failed to activate " + ticker + ": " + BuildErrorMessage(built.error));
        return;
      }
      result := SendBuilt(ticker, built.value, enableHd, waitForCompletion);
    }

    /** BuildAndSend for a request the builder gave: it is sent as the next
        call and only coin methods follow. */
    method SendBuilt(ticker: string, request: ActivationRequest, enableHd: bool, waitForCompletion: bool)
      returns (result: ActivationResult)
      requires var info := GetProtocolInfo(config, ticker);
        && FamilyBuilt(Ok(request), config, ticker, info, enableHd)
        && request.rpcMethod == InitMethod(info.protocolType) && request.isTask
      modifies store, rpc
      ensures var key := StateKey(instanceName, Upper(ticker));
        var n := |old(rpc.calls)|;
        && OnlyKeyChanged(old(store.entries), store.entries, key)
        && n <= |rpc.calls| && rpc.calls[..n] == old(rpc.calls)
        && (forall i :: n <= i < |rpc.calls| ==> rpc.calls[i].0 in CoinMethods)
      ensures Sent(ticker, request, enableHd, waitForCompletion, |old(rpc.calls)|, old(store.entries),
                   rpc.calls, store.entries, result)
    {
      result := SendActivation(ticker, request, waitForCompletion);
      InitMethodIsCoinMethod(GetProtocolInfo(config, ticker).protocolType);
      forall i | |old(rpc.calls)| <= i < |rpc.calls|
        ensures rpc.calls[i].0 in CoinMethods
      {
        if i > |old(rpc.calls)| {
          assert rpc.calls[i].0 in StatusMethods;
        }
      }
    }

    /** `request` is what `build_activation_request` gives for `ticker`,
        it was sent as call `n` of `calls1`, and its reply was handled from
        the entries `entries0` to `entries1`. */
    ghost predicate Sent(ticker: string, request: ActivationRequest, enableHd: bool, waitForCompletion: bool,
                         n: nat, entries0: map<string, Object>, calls1: seq<(string, Json)>,
                         entries1: map<string, Object>, result: ActivationResult)
    {
      var info := GetProtocolInfo(config, ticker);
      && FamilyBuilt(Ok(request), config, ticker, info, enableHd)
      && request.rpcMethod == InitMethod(info.protocolType)
      && request.isTask
      && n < |calls1| && calls1[n] == (request.rpcMethod, request.params)
      && ReplyHandled(ticker, request, waitForCompletion, rpc.respond(n, request.rpcMethod, request.params),
                      n + 1, entries0, |calls1|, entries1, result)
    }

    /** The build-and-send step of `activate_coin`, with `n` calls made
        before it: an unsupported protocol records a failure before any
        call; any other protocol's request is built and sent as call `n`. */
    ghost predicate Dispatched(ticker: string, enableHd: bool, waitForCompletion: bool, n: nat,
                               entries0: map<string, Object>, calls1: seq<(string, Json)>,
                               entries1: map<string, Object>, result: ActivationResult)
    {
      var key := StateKey(instanceName, Upper(ticker));
      var family := GetProtocolInfo(config, ticker).protocolType;
      && (family !in Families ==>
            && result == FailureResult(JObj(map[]), "Failed to activate " + ticker + ": " +
                                       BuildErrorMessage(UnsupportedProtocol(family, ticker)))
            && entries1 == entries0[key := FailedEntry(result.error.s)]
            && |calls1| == n)
      && (family in Families ==>
            exists request :: Sent(ticker, request, enableHd, waitForCompletion, n, entries0, calls1, entries1, result))
    }

    /** What `activate_coin` does once KDF has answered the listing
        `get_enabled_coins` with `listing`, from the entries `entries0`, with
        `n` calls made before the next one, to those after it. Only the
        ticker's entry changes and every new call is one of `CoinMethods`. A
        raise, or a listing whose tickers cannot be upper-cased, records a
        failure; a listing that names the ticker records it as already
        enabled; in those cases no call follows. Otherwise the request is
        built and sent. When the caller waits, success means the entry ends
        enabled. */
    ghost predicate ListingHandled(ticker: string, listing: Reply, enableHd: bool, waitForCompletion: bool, n: nat,
                                   entries0: map<string, Object>, calls1: seq<(string, Json)>,
                                   entries1: map<string, Object>, result: ActivationResult)
    {
      var key := StateKey(instanceName, Upper(ticker));
      var stops := listing.Raised? || ListingError(listing.value).Some? || ListedAsEnabled(listing.value, Upper(ticker));
      && OnlyKeyChanged(entries0, entries1, key)
      && n <= |calls1|
      && (forall i :: n <= i < |calls1| ==> calls1[i].0 in CoinMethods)
      && (waitForCompletion ==> (result.success <==> StatusAt(entries1, key) == JStr("enabled")))
      && (result.alreadyEnabled ==>
            result == AlreadyEnabledResult && key in entries1 && entries1[key] == AlreadyEnabledEntry)
      && (listing.Raised? ==>
            && result == FailureResult(JObj(map[]), "Failed to activate " + ticker + ": " + listing.message)
            && entries1 == entries0[key := FailedEntry(result.error.s)])
      && (listing.Returned? && ListingError(listing.value).Some? ==>
            && result == FailureResult(JObj(map[]), "Failed to activate " + ticker + ": " +
                                       ListingError(listing.value).value)
            && entries1 == entries0[key := FailedEntry(result.error.s)])
      && (listing.Returned? && ListingError(listing.value).None? && ListedAsEnabled(listing.value, Upper(ticker)) ==>
            result == AlreadyEnabledResult)
      && (stops ==> |calls1| == n)
      && (!stops ==> Dispatched(ticker, enableHd, waitForCompletion, n, entries0, calls1, entries1, result))
    }

    /** What `activate_coin` does, from the calls and entries before it to
        those after it. Only the ticker's entry changes, the earlier calls
        are kept and every new call is one of `CoinMethods`. A coin the state
        already shows as enabled is reported from its entry, with no call and
        no change. Otherwise `get_enabled_coins` is called first and its
        reply handled as ListingHandled states. When the caller waits,
        success means the entry ends enabled. */
    ghost predicate CoinActivation(ticker: string, enableHd: bool, waitForCompletion: bool,
                                   calls0: seq<(string, Json)>, entries0: map<string, Object>,
                                   calls1: seq<(string, Json)>, entries1: map<string, Object>,
                                   result: ActivationResult)
    {
      var key := StateKey(instanceName, Upper(ticker));
      var n := |calls0|;
      var starting := StatusAt(entries0, key) != JStr("enabled");
      && OnlyKeyChanged(entries0, entries1, key)
      && n <= |calls1| && calls1[..n] == calls0
      && (forall i :: n <= i < |calls1| ==> calls1[i].0 in CoinMethods)
      && (waitForCompletion ==> (result.success <==> StatusAt(entries1, key) == JStr("enabled")))
      && (!starting ==>
            && result == ActivationResult(true, GetOr(entries0[key], "result", JObj(map[])), JNull, JNull, false)
            && calls1 == calls0 && entries1 == entries0)
      && (starting ==>
            && n < |calls1| && calls1[n] == ("get_enabled_coins", JObj(map[]))
            && ListingHandled(ticker, rpc.respond(n, "get_enabled_coins", JObj(map[])), enableHd, waitForCompletion,
                              n + 1, entries0, calls1, entries1, result))
    }

    /** `activate_coin`: nothing to do when the state already says enabled;
        otherwise ask the daemon which coins are enabled, build the request,
        send it and follow its task. Every failure is reported in the result.
        Without waiting, the source returns the init reply while its polling
        thread still runs; here the polling has run before the reply is
        returned. */
    method ActivateCoin(ticker: string, enableHd: bool, waitForCompletion: bool) returns (result: ActivationResult)
      modifies store, rpc
      ensures CoinActivation(ticker, enableHd, waitForCompletion, old(rpc.calls), old(store.entries), rpc.calls, store.entries, result)
    {
      var tickerUpper := Upper(ticker);
      var key := StateKey(instanceName, tickerUpper);
      UpperIdempotent(ticker);
      if IsCoinEnabled(tickerUpper) {
        return ActivationResult(true, GetOr(store.entries[key], "result", JObj(map[])), JNull, JNull, false);
      }
      result := ListAndActivate(ticker, enableHd, waitForCompletion);
    }

    /** `activate_coin` once the coin is known not to be enabled here: ask KDF
        which coins it already has, then build and send the request. */
    method ListAndActivate(ticker: string, enableHd: bool, waitForCompletion: bool) returns (result: ActivationResult)
      modifies store, rpc
      ensures var n := |old(rpc.calls)|;
        && n < |rpc.calls| && rpc.calls[..n] == old(rpc.calls)
        && rpc.calls[n] == ("get_enabled_coins", JObj(map[]))
        && ListingHandled(ticker, rpc.respond(n, "get_enabled_coins", JObj(map[])), enableHd, waitForCompletion,
                          n + 1, old(store.entries), rpc.calls, store.entries, result)
    {
      var listing := rpc.Call("get_enabled_coins", JObj(map[]));
      ghost var calls1 := rpc.calls;
      result := AfterListing(ticker, listing, enableHd, waitForCompletion);
      assert |calls1| == |old(rpc.calls)| + 1;
      assert rpc.calls[..|calls1|] == calls1;
      assert rpc.calls[..|calls1|][..|old(rpc.calls)|] == old(rpc.calls);
      assert rpc.calls[|old(rpc.calls)|] == calls1[|old(rpc.calls)|];
    }

    /** `activate_coin` once KDF has answered `get_enabled_coins`. */
    method AfterListing(ticker: string, listing: Reply, enableHd: bool, waitForCompletion: bool)
      returns (result: ActivationResult)
      modifies store, rpc
      ensures |old(rpc.calls)| <= |rpc.calls| && rpc.calls[..|old(rpc.calls)|] == old(rpc.calls)
      ensures ListingHandled(ticker, listing, enableHd, waitForCompletion, |old(rpc.calls)|, old(store.entries),
                             rpc.calls, store.entries, result)
    {
      var tickerUpper := Upper(ticker);
      var key := StateKey(instanceName, tickerUpper);
      if listing.Raised? {
        result := RecordFailure(key, "Failed to activate " + ticker + ": " + listing.message);
        return;
      }
      var fault := ListingError(listing.value);
      if fault.Some? {
        result := RecordFailure(key, "Failed to activate " + ticker + ": " + fault.value);
        return;
      }
      result := AfterValidListing(ticker, listing.value, enableHd, waitForCompletion);
    }

    /** AfterListing for a listing that names its tickers as strings. */
    method AfterValidListing(ticker: string, listing: Json, enableHd: bool, waitForCompletion: bool)
      returns (result: ActivationResult)
      requires ListingError(listing).None?
      modifies store, rpc
      ensures |old(rpc.calls)| <= |rpc.calls| && rpc.calls[..|old(rpc.calls)|] == old(rpc.calls)
      ensures ListingHandled(ticker, Returned(listing), enableHd, waitForCompletion, |old(rpc.calls)|, old(store.entries),
                             rpc.calls, store.entries, result)
    {
      var tickerUpper := Upper(ticker);
      var key := StateKey(instanceName, tickerUpper);
      if ListedAsEnabled(listing, tickerUpper) {
        UpdateOnlyKey(store.entries, key, AlreadyEnabledEntry);
        store.entries := store.entries[key := AlreadyEnabledEntry];
        return AlreadyEnabledResult;
      }
      result := BuildAndSend(ticker, enableHd, waitForCompletion);
    }

    /** What the token request of `activate_token` did, sent as call `n`
        from the entries `entries1`: the token's entry is replaced by the
        in-progress entry, then marked enabled or failed by the reply; a
        raise replaces it by a failure. */
    ghost predicate TokenRequestDone(ticker: string, request: ActivationRequest, parent: Json, n: nat,
                                     entries1: map<string, Object>, entries2: map<string, Object>,
                                     result: ActivationResult)
    {
      var key := StateKey(instanceName, Upper(ticker));
      var reply := rpc.respond(n, request.rpcMethod, request.params);
      && OnlyKeyChanged(entries1, entries2, key)
      && (result.success <==> StatusAt(entries2, key) == JStr("enabled"))
      && (reply.Raised? ==>
            && result == FailureResult(JObj(map[]), "Failed to activate token " + ticker + ": " + reply.message)
            && entries2 == entries1[key := FailedEntry(result.error.s)])
      && (reply.Returned? ==>
            var response := ResponseOf(reply.value);
            && (result.success <==> response.JObj? && Truthy(Field(response, "result")))
            && (result.success ==> result == ActivationResult(true, response, JNull, JNull, false))
            && (!result.success ==> result == FailureResult(response, "Token activation request failed"))
            && entries2 == entries1[key := Mark(TokenEntry(request, parent),
                                                if result.success then "enabled" else "failed", "result", response)])
    }

    /** The entry `activate_token` records before its request. */
    function TokenEntry(request: ActivationRequest, parent: Json): Object
    {
      map["status" := JStr("in_progress"), "parent" := parent, "method" := JStr(request.rpcMethod)]
    }

    /** The token step of `activate_token`, once the parent (if any) is enabled. */
    method SendTokenRequest(ticker: string, request: ActivationRequest, parent: Json) returns (result: ActivationResult)
      modifies store, rpc
      ensures rpc.calls == old(rpc.calls) + [(request.rpcMethod, request.params)]
      ensures TokenRequestDone(ticker, request, parent, |old(rpc.calls)|, old(store.entries), store.entries, result)
    {
      var key := StateKey(instanceName, Upper(ticker));
      ghost var entries1 := store.entries;
      store.entries := store.entries[key := TokenEntry(request, parent)];
      var reply := rpc.Call(request.rpcMethod, request.params);
      if reply.Raised? {
        result := RecordFailure(key, "Failed to activate token " + ticker + ": " + reply.message);
        assert store.entries == entries1[key := FailedEntry(result.error.s)];
        UpdateOnlyKey(entries1, key, FailedEntry(result.error.s));
        return;
      }
      var response := ResponseOf(reply.value);
      var success := response.JObj? && Truthy(Field(response, "result"));
      var entry := Mark(TokenEntry(request, parent), if success then "enabled" else "failed", "result", response);
      store.entries := store.entries[key := entry];
      assert store.entries == entries1[key := entry];
      UpdateOnlyKey(entries1, key, entry);
      if success {
        return ActivationResult(true, response, JNull, JNull, false);
      }
      return FailureResult(response, "Token activation request failed");
    }

    /** `activate_token`: the parent coin (the override if one is given) is
        activated first, and a parent that fails ends the activation before
        the token's own request. `parentRun` records the parent's
        activation, when one was made: its result and the calls and entries
        it left. */
    method ActivateToken(ticker: string, parentOverride: Option<string>, enableHd: bool)
      returns (result: ActivationResult, ghost parentRun: Option<ParentStep>)
      modifies store, rpc
      ensures var key := StateKey(instanceName, Upper(ticker));
        var token := BuildTokenActivationRequest(config, ticker);
        var starting := !old(IsCoinEnabled(ticker));
        && |old(rpc.calls)| <= |rpc.calls| && rpc.calls[..|old(rpc.calls)|] == old(rpc.calls)
        && (!starting ==>
              && result == ActivationResult(true, GetOr(old(store.entries)[key], "result", JObj(map[])), JNull, JNull, false)
              && parentRun.None? && rpc.calls == old(rpc.calls) && store.entries == old(store.entries))
        && (starting && token.Err? ==>
              && result == FailureResult(JObj(map[]), "Failed to activate token " + ticker + ": " +
                                         BuildErrorMessage(NotAToken(ticker)))
              && parentRun.None? && rpc.calls == old(rpc.calls)
              && store.entries == old(store.entries)[key := FailedEntry(result.error.s)])
        && (starting && token.Ok? ==>
              TokenStepDone(ticker, token.value.0, ParentChoice(parentOverride, token.value.1), enableHd,
                            old(rpc.calls), old(store.entries), result, parentRun))
        && (starting && token.Ok? && parentRun.Some? ==>
              forall i :: |old(rpc.calls)| <= i < |parentRun.value.calls| ==>
                parentRun.value.calls[i] != (token.value.0.rpcMethod, token.value.0.params))
    {
      parentRun := None;
      var tickerUpper := Upper(ticker);
      var key := StateKey(instanceName, tickerUpper);
      UpperIdempotent(ticker);
      if IsCoinEnabled(tickerUpper) {
        return ActivationResult(true, GetOr(store.entries[key], "result", JObj(map[])), JNull, JNull, false), None;
      }
      var token := BuildTokenActivationRequest(config, ticker);
      if token.Err? {
        result := RecordFailure(key, "Failed to activate token " + ticker + ": " + BuildErrorMessage(token.error));
        return;
      }
      result, parentRun := EnableParentThenToken(ticker, token.value.0, ParentChoice(parentOverride, token.value.1), enableHd);
      TokenMethodsNotCoinMethods();
    }

    /** What `activate_token` has done once its request is built. With a
        parent, the parent was activated by `activate_coin`, waiting for it.
        A parent that fails ends the run where the parent left the calls and
        the entries. Otherwise the token's request is the one call after the
        parent's, and its outcome decides the result. */
    ghost predicate TokenStepDone(ticker: string, request: ActivationRequest, parent: Json, enableHd: bool,
                                  calls0: seq<(string, Json)>, entries0: map<string, Object>,
                                  result: ActivationResult, parentRun: Option<ParentStep>)
      reads store, rpc
    {
      var calls1 := if parentRun.Some? then parentRun.value.calls else calls0;
      var entries1 := if parentRun.Some? then parentRun.value.entries else entries0;
      && (parentRun.Some? <==> Truthy(parent))
      && (parentRun.Some? ==>
            CoinActivation(PyStr(parent), enableHd, true, calls0, entries0, calls1, entries1, parentRun.value.result))
      && (parentRun.Some? && !parentRun.value.result.success ==>
            && rpc.calls == calls1 && store.entries == entries1
            && result == FailureResult(parentRun.value.result.response, "Failed to enable parent coin " +
                                       PyStr(parent) + ": " + PyStr(parentRun.value.result.error)))
      && (parentRun.None? || parentRun.value.result.success ==>
            && rpc.calls == calls1 + [(request.rpcMethod, request.params)]
            && TokenRequestDone(ticker, request, parent, |calls1|, entries1, store.entries, result))
    }

    /** The parent step and the token step of `activate_token`. */
    method EnableParentThenToken(ticker: string, request: ActivationRequest, parent: Json, enableHd: bool)
      returns (result: ActivationResult, ghost parentRun: Option<ParentStep>)
      modifies store, rpc
      ensures |old(rpc.calls)| <= |rpc.calls| && rpc.calls[..|old(rpc.calls)|] == old(rpc.calls)
      ensures TokenStepDone(ticker, request, parent, enableHd, old(rpc.calls), old(store.entries), result, parentRun)
    {
      parentRun := None;
      if Truthy(parent) {
        var parentResult := ActivateCoin(PyStr(parent), enableHd, true);
        parentRun := Some(ParentStep(parentResult, rpc.calls, store.entries));
        if !parentResult.success {
          result := FailureResult(parentResult.response, "Failed to enable parent coin " + PyStr(parent) + ": " +
                                  PyStr(parentResult.error));
          return;
        }
      }
      ghost var calls1 := rpc.calls;
      result := SendTokenRequest(ticker, request, parent);
      assert rpc.calls[..|calls1|] == calls1;
    }
  }
}
