/**
 * `extract_ticker_from_request`: where a KDF request names its coin.
 */
module KdfMethod {
  import opened Wrappers
  import opened Text
  import opened JsonData

  /** The ticker a method name such as `enable_KMD` carries: the text after
      `enable_` when it is non-empty and upper-case or alphabetic. */
  function MethodTicker(name: Json): (r: Json)
    ensures r != JNull ==>
      && name.JStr? && StartsWith(name.s, "enable_") && |name.s| > 7
      && r == JStr(name.s[7..])
      && (PyIsUpper(r.s) || PyIsAlpha(r.s))
  {
    if name.JStr? && Truthy(name) && StartsWith(name.s, "enable_") && |name.s| > 7 then
      var possible := name.s[7..];
      if PyIsUpper(possible) || PyIsAlpha(possible) then JStr(possible) else JNull
    else JNull
  }

  /** `extract_ticker_from_request`; `None` is `JNull`. */
  function ExtractTicker(request: Json): (r: Json)
    ensures !request.JObj? ==> r == JNull
  {
    if !request.JObj? then JNull
    else
      var d := request.fields;
      if "ticker" in d then d["ticker"]
      else if "coin" in d then d["coin"]
      else
        var params := GetOr(d, "params", JObj(map[]));
        if params.JObj? && "ticker" in params.fields then params.fields["ticker"]
        else if params.JObj? && "coin" in params.fields then params.fields["coin"]
        else
          var activationParams := if params.JObj? then GetOr(params.fields, "activation_params", JObj(map[])) else JNull;
          if activationParams.JObj? && "ticker" in activationParams.fields then activationParams.fields["ticker"]
          else if activationParams.JObj? && "coin" in activationParams.fields then activationParams.fields["coin"]
          else MethodTicker(GetOr(d, "method", JStr("")))
  }

  /** The places a ticker may be stored, in the order they are tried: a dict
      (a non-dict reads as empty) and a key. */
  function TickerPlaces(request: Json): seq<(Object, string)>
  {
    var root := AsObject(request);
    var params := AsObject(GetOr(root, "params", JObj(map[])));
    var activationParams := AsObject(GetOr(params, "activation_params", JObj(map[])));
    [(root, "ticker"), (root, "coin"), (params, "ticker"), (params, "coin"),
     (activationParams, "ticker"), (activationParams, "coin")]
  }

  /** The value stored under the first place whose key is present. */
  function FirstPresent(places: seq<(Object, string)>): (r: Option<Json>)
    ensures r.None? <==> forall i :: 0 <= i < |places| ==> places[i].1 !in places[i].0
  {
    if places == [] then None
    else if places[0].1 in places[0].0 then Some(places[0].0[places[0].1])
    else
      var rest := FirstPresent(places[1..]);
      assert forall i :: 1 <= i < |places| ==> places[i] == places[1..][i - 1];
      rest
  }

  /** The order of precedence: the first place holding the key decides,
      whatever the value stored there (presence, not truthiness); the method
      name is consulted only when no place holds its key. */
  lemma ExtractTickerPrecedence(request: Json)
    requires request.JObj?
    ensures FirstPresent(TickerPlaces(request)).Some? ==>
      ExtractTicker(request) == FirstPresent(TickerPlaces(request)).value
    ensures FirstPresent(TickerPlaces(request)).None? ==>
      ExtractTicker(request) == MethodTicker(GetOr(request.fields, "method", JStr("")))
  {
    var places := TickerPlaces(request);
    if FirstPresent(places).None? {
      assert places[0].1 !in places[0].0 && places[1].1 !in places[1].0;
      assert places[2].1 !in places[2].0 && places[3].1 !in places[3].0;
      assert places[4].1 !in places[4].0 && places[5].1 !in places[5].0;
    } else if places[0].1 in places[0].0 {
      FirstPresentIsFirst(places, 0);
    } else if places[1].1 in places[1].0 {
      FirstPresentIsFirst(places, 1);
    } else if places[2].1 in places[2].0 {
      FirstPresentIsFirst(places, 2);
    } else if places[3].1 in places[3].0 {
      FirstPresentIsFirst(places, 3);
    } else if places[4].1 in places[4].0 {
      FirstPresentIsFirst(places, 4);
    } else {
      assert places[5].1 in places[5].0;
      FirstPresentIsFirst(places, 5);
    }
  }

  /** A place later in the order is used only when no earlier one holds its key. */
  lemma {:induction false} FirstPresentIsFirst(places: seq<(Object, string)>, i: nat)
    requires i < |places| && places[i].1 in places[i].0
    requires forall j :: 0 <= j < i ==> places[j].1 !in places[j].0
    ensures FirstPresent(places) == Some(places[i].0[places[i].1])
  {
    if i > 0 {
      FirstPresentIsFirst(places[1..], i - 1);
    }
  }

  /** `enable_KMD` names KMD when nothing else does. */
  lemma EnableMethodNamesTicker(x: string)
    requires PyIsUpper(x) || PyIsAlpha(x)
    ensures ExtractTicker(JObj(map["method" := JStr("enable_" + x)])) == JStr(x)
  {
    var m := "enable_" + x;
    assert m[..7] == "enable_" && m[7..] == x;
    assert |x| > 0;
  }
}
