/**
 * Endpoint selection of `ActivationRequestBuilder`: capping a server or URL
 * list at `max_count` with cipig/komodo hosts first, and ordering electrum
 * servers by transport (WSS / SSL / TCP / other) with a stable partition on
 * preferred hosts, capped at three.
 *
 * `random.sample(pool, k)` is a nondeterministic choice of `k` entries taken
 * from distinct positions of `pool`, in any order.
 */
module ServerSelection {
  import opened Text
  import opened JsonData

  predicate PreferredHost(lowerUrl: string)
  {
    Contains(lowerUrl, "cipig") || Contains(lowerUrl, "komodo")
  }

  /** The priority test of `_select_preferred_servers` and `prioritize_cipig`:
      the lower-cased `url` (default "") names cipig or komodo. */
  predicate ServerIsPreferred(server: Json)
  {
    PreferredHost(Lower(PyStr(GetOr(AsObject(server), "url", JStr("")))))
  }

  /** The priority test of `_filter_electrum_servers`: cipig only. */
  predicate ServerIsCipig(server: Json)
  {
    Contains(Lower(PyStr(GetOr(AsObject(server), "url", JStr("")))), "cipig")
  }

  /** The priority test of `select_preferred_urls`: a string naming cipig or komodo. */
  predicate UrlIsPreferred(url: Json)
  {
    url.JStr? && PreferredHost(Lower(url.s))
  }

  /** The entries of `s` that satisfy `p`, in order. */
  function Filter(s: seq<Json>, p: Json -> bool): (r: seq<Json>)
    ensures |r| <= |s|
  {
    if s == [] then []
    else Filter(s[..|s| - 1], p) + (if p(s[|s| - 1]) then [s[|s| - 1]] else [])
  }

  /** The entries of `s` that fail `p`, in order. */
  function FilterNot(s: seq<Json>, p: Json -> bool): seq<Json>
  {
    if s == [] then []
    else FilterNot(s[..|s| - 1], p) + (if p(s[|s| - 1]) then [] else [s[|s| - 1]])
  }

  /** Splitting on `p` loses and invents nothing. */
  lemma {:induction false} FilterSplit(s: seq<Json>, p: Json -> bool)
    ensures multiset(Filter(s, p)) + multiset(FilterNot(s, p)) == multiset(s)
    ensures |Filter(s, p)| + |FilterNot(s, p)| == |s|
  {
    if s != [] {
      var init, last := s[..|s| - 1], s[|s| - 1];
      FilterSplit(init, p);
      assert s == init + [last];
      var yes := if p(last) then [last] else [];
      var no := if p(last) then [] else [last];
      assert Filter(s, p) == Filter(init, p) + yes;
      assert FilterNot(s, p) == FilterNot(init, p) + no;
      assert multiset(yes) + multiset(no) == multiset([last]);
      calc {
        multiset(Filter(s, p)) + multiset(FilterNot(s, p));
        multiset(Filter(init, p)) + multiset(yes) + (multiset(FilterNot(init, p)) + multiset(no));
        multiset(init) + multiset([last]);
        multiset(s);
      }
    }
  }

  lemma {:induction false} FilterHolds(s: seq<Json>, p: Json -> bool)
    ensures forall x :: x in Filter(s, p) ==> p(x) && x in s
    ensures forall x :: x in FilterNot(s, p) ==> !p(x) && x in s
  {
    if s != [] {
      FilterHolds(s[..|s| - 1], p);
      assert s == s[..|s| - 1] + [s[|s| - 1]];
    }
  }

  /** A list whose entries all satisfy `p` is its own filter. */
  lemma {:induction false} FilterAll(s: seq<Json>, p: Json -> bool)
    requires forall x :: x in s ==> p(x)
    ensures Filter(s, p) == s
  {
    if s != [] {
      assert forall x :: x in s[..|s| - 1] ==> x in s;
      FilterAll(s[..|s| - 1], p);
    }
  }

  /** Entries that satisfy `p` followed by entries that fail it filter to the first part. */
  lemma {:induction false} FilterThenNone(a: seq<Json>, b: seq<Json>, p: Json -> bool)
    requires forall x :: x in a ==> p(x)
    requires forall x :: x in b ==> !p(x)
    ensures Filter(a + b, p) == a
  {
    if b == [] {
      assert a + b == a;
      FilterAll(a, p);
    } else {
      var init := b[..|b| - 1];
      assert (a + b)[..|a + b| - 1] == a + init;
      assert (a + b)[|a + b| - 1] == b[|b| - 1];
      assert forall x :: x in init ==> x in b;
      FilterThenNone(a, init, p);
    }
  }

  /** When every entry passes the filter, every entry satisfies `p`. */
  lemma {:induction false} FilterKeepsEverything(s: seq<Json>, p: Json -> bool)
    requires |Filter(s, p)| == |s|
    ensures forall x :: x in s ==> p(x)
  {
    if s != [] {
      var init := s[..|s| - 1];
      assert p(s[|s| - 1]);
      FilterKeepsEverything(init, p);
      assert s == init + [s[|s| - 1]];
    }
  }

  function Min(a: nat, b: nat): nat
  {
    if a < b then a else b
  }

  /** `cipig + rest` in `prioritize_cipig`: a stable partition, preferred entries first. */
  function Prioritized(s: seq<Json>, p: Json -> bool): seq<Json>
  {
    Filter(s, p) + FilterNot(s, p)
  }

  /** The stable partition is a permutation that puts every preferred entry
      before every other one. */
  lemma PrioritizedPermutes(s: seq<Json>, p: Json -> bool)
    ensures multiset(Prioritized(s, p)) == multiset(s)
    ensures forall i, j :: 0 <= i < j < |Prioritized(s, p)| && p(Prioritized(s, p)[j]) ==> p(Prioritized(s, p)[i])
  {
    FilterSplit(s, p);
    FilterHolds(s, p);
    var r := Prioritized(s, p);
    var n := |Filter(s, p)|;
    forall i | 0 <= i < n ensures p(r[i]) {
      assert r[i] == Filter(s, p)[i];
    }
    forall j | n <= j < |r| ensures !p(r[j]) {
      assert r[j] == FilterNot(s, p)[j - n];
    }
  }

  /** `random.sample(pool, k)`'s possible results: `k` entries from distinct positions. */
  predicate IsSample(pick: seq<Json>, pool: seq<Json>, k: nat)
  {
    |pick| == k && multiset(pick) <= multiset(pool)
  }

  method Sample(pool: seq<Json>, k: nat) returns (pick: seq<Json>)
    requires k <= |pool|
    ensures IsSample(pick, pool, k)
  {
    assert pool == pool[..k] + pool[k..];
    assert multiset(pool[..k]) <= multiset(pool);
    assert IsSample(pool[..k], pool, k);
    pick :| IsSample(pick, pool, k);
  }

  lemma SubMultisetMembers(a: seq<Json>, b: seq<Json>)
    requires multiset(a) <= multiset(b)
    ensures forall x :: x in a ==> x in b
  {
    forall x | x in a ensures x in b {
      assert x in multiset(a);
    }
  }

  /**
   * The common body of `_select_preferred_servers` and `select_preferred_urls`.
   * A list that fits is returned as it is; otherwise exactly `maxCount`
   * entries are taken from distinct positions, preferred ones first: as
   * many preferred entries as there are, up to `maxCount`, and all of them
   * whenever there are at most `maxCount`.
   */
  method SelectPreferred(items: seq<Json>, maxCount: nat, preferred: Json -> bool) returns (selected: seq<Json>)
    ensures |items| <= maxCount ==> selected == items
    ensures |items| > maxCount ==> |selected| == maxCount
    ensures multiset(selected) <= multiset(items)
    ensures |Filter(items, preferred)| <= maxCount ==> multiset(Filter(items, preferred)) <= multiset(selected)
    ensures |Filter(selected, preferred)| == Min(|Filter(items, preferred)|, maxCount)
    ensures |Filter(items, preferred)| >= maxCount ==> forall x :: x in selected ==> preferred(x)
    ensures |items| > maxCount ==>
      forall i, j :: 0 <= i < j < |selected| && preferred(selected[j]) ==> preferred(selected[i])
  {
    if |items| <= maxCount {
      FilterSplit(items, preferred);
      if |Filter(items, preferred)| >= maxCount {
        FilterKeepsEverything(items, preferred);
      }
      return items;
    }
    var priority, regular := SplitByPreference(items, preferred);
    var first := [];
    if priority != [] {
      first := PickUpTo(priority, maxCount);
    }
    var remaining := maxCount - |first|;
    var more := [];
    if remaining > 0 && regular != [] {
      more := PickUpTo(regular, remaining);
    }
    selected := first + more;
    SelectionFacts(items, maxCount, preferred, first, more);
  }

  /** All of `pool` when it fits in `k`, a sample of `k` otherwise. */
  method PickUpTo(pool: seq<Json>, k: nat) returns (pick: seq<Json>)
    ensures |pick| == Min(|pool|, k)
    ensures multiset(pick) <= multiset(pool)
    ensures |pool| <= k ==> pick == pool
  {
    if |pool| <= k {
      return pool;
    }
    pick := Sample(pool, k);
  }

  /** The preferred pick followed by the regular pick meets the promise of
      the selectors on a list longer than `maxCount`. */
  lemma SelectionFacts(items: seq<Json>, maxCount: nat, preferred: Json -> bool, first: seq<Json>, more: seq<Json>)
    requires |items| > maxCount
    requires |first| == Min(|Filter(items, preferred)|, maxCount)
    requires multiset(first) <= multiset(Filter(items, preferred))
    requires |Filter(items, preferred)| <= maxCount ==> first == Filter(items, preferred)
    requires |more| == Min(|FilterNot(items, preferred)|, maxCount - |first|)
    requires multiset(more) <= multiset(FilterNot(items, preferred))
    ensures |first + more| == maxCount
    ensures multiset(first + more) <= multiset(items)
    ensures |Filter(items, preferred)| <= maxCount ==> multiset(Filter(items, preferred)) <= multiset(first + more)
    ensures |Filter(first + more, preferred)| == Min(|Filter(items, preferred)|, maxCount)
    ensures |Filter(items, preferred)| >= maxCount ==> forall x :: x in first + more ==> preferred(x)
    ensures forall i, j :: 0 <= i < j < |first + more| && preferred((first + more)[j]) ==> preferred((first + more)[i])
  {
    FilterSplit(items, preferred);
    FilterHolds(items, preferred);
    SubMultisetMembers(first, Filter(items, preferred));
    SubMultisetMembers(more, FilterNot(items, preferred));
    PreferredFirst(first, more, preferred);
    FilterThenNone(first, more, preferred);
    assert multiset(first + more) == multiset(first) + multiset(more);
  }

  /** The promise of the selectors, as one predicate over a possible result. */
  predicate PreferredSelection(selected: seq<Json>, items: seq<Json>, maxCount: nat, preferred: Json -> bool)
  {
    && (|items| <= maxCount ==> selected == items)
    && (|items| > maxCount ==> |selected| == maxCount)
    && multiset(selected) <= multiset(items)
    && (|Filter(items, preferred)| <= maxCount ==> multiset(Filter(items, preferred)) <= multiset(selected))
    && |Filter(selected, preferred)| == Min(|Filter(items, preferred)|, maxCount)
    && (|Filter(items, preferred)| >= maxCount ==> forall x :: x in selected ==> preferred(x))
    && (|items| > maxCount ==>
          forall i, j :: 0 <= i < j < |selected| && preferred(selected[j]) ==> preferred(selected[i]))
  }

  /** The partition loop of the selectors. */
  method SplitByPreference(items: seq<Json>, preferred: Json -> bool) returns (priority: seq<Json>, regular: seq<Json>)
    ensures priority == Filter(items, preferred)
    ensures regular == FilterNot(items, preferred)
  {
    priority, regular := [], [];
    var i := 0;
    while i < |items|
      invariant 0 <= i <= |items|
      invariant priority == Filter(items[..i], preferred)
      invariant regular == FilterNot(items[..i], preferred)
    {
      assert items[..i + 1][..i] == items[..i];
      if preferred(items[i]) {
        priority := priority + [items[i]];
      } else {
        regular := regular + [items[i]];
      }
      i := i + 1;
    }
    assert items[..i] == items;
  }

  /** Preferred entries followed by non-preferred ones keep preferred ones first. */
  lemma PreferredFirst(first: seq<Json>, more: seq<Json>, preferred: Json -> bool)
    requires forall x :: x in first ==> preferred(x)
    requires forall x :: x in more ==> !preferred(x)
    ensures forall i, j :: 0 <= i < j < |first + more| && preferred((first + more)[j]) ==> preferred((first + more)[i])
  {
    var r := first + more;
    forall i | 0 <= i < |first| ensures preferred(r[i]) {
      assert r[i] == first[i];
    }
    forall j | |first| <= j < |r| ensures !preferred(r[j]) {
      assert r[j] == more[j - |first|];
    }
  }

  /** `_select_preferred_servers` / `select_preferred_servers` on server dicts. */
  method SelectPreferredServers(servers: seq<Json>, maxCount: nat) returns (selected: seq<Json>)
    ensures |servers| <= maxCount ==> selected == servers
    ensures |servers| > maxCount ==> |selected| == maxCount
    ensures multiset(selected) <= multiset(servers)
    ensures |Filter(servers, ServerIsPreferred)| <= maxCount ==>
      multiset(Filter(servers, ServerIsPreferred)) <= multiset(selected)
    ensures |Filter(selected, ServerIsPreferred)| == Min(|Filter(servers, ServerIsPreferred)|, maxCount)
    ensures |Filter(servers, ServerIsPreferred)| >= maxCount ==> forall x :: x in selected ==> ServerIsPreferred(x)
    ensures |servers| > maxCount ==>
      forall i, j :: 0 <= i < j < |selected| && ServerIsPreferred(selected[j]) ==> ServerIsPreferred(selected[i])
  {
    selected := SelectPreferred(servers, maxCount, ServerIsPreferred);
  }

  /** `select_preferred_urls` on URL strings (a non-string entry is never preferred). */
  method SelectPreferredUrls(urls: seq<Json>, maxCount: nat) returns (selected: seq<Json>)
    ensures |urls| <= maxCount ==> selected == urls
    ensures |urls| > maxCount ==> |selected| == maxCount
    ensures multiset(selected) <= multiset(urls)
    ensures |Filter(urls, UrlIsPreferred)| <= maxCount ==>
      multiset(Filter(urls, UrlIsPreferred)) <= multiset(selected)
    ensures |Filter(selected, UrlIsPreferred)| == Min(|Filter(urls, UrlIsPreferred)|, maxCount)
    ensures |Filter(urls, UrlIsPreferred)| >= maxCount ==> forall x :: x in selected ==> UrlIsPreferred(x)
    ensures |urls| > maxCount ==>
      forall i, j :: 0 <= i < j < |selected| && UrlIsPreferred(selected[j]) ==> UrlIsPreferred(selected[i])
  {
    selected := SelectPreferred(urls, maxCount, UrlIsPreferred);
  }

  /** The transport an electrum entry names: its first truthy one of
      `protocol` and `proto`, as text and upper-cased. */
  datatype Transport = Wss | Ssl | Tcp | OtherTransport

  function TransportOf(server: Json): Transport
  {
    var d := AsObject(server);
    var proto := Upper(PyStr(Or(Or(Get(d, "protocol"), Get(d, "proto")), JStr(""))));
    if proto == "WSS" then Wss
    else if proto == "SSL" then Ssl
    else if proto == "TCP" then Tcp
    else OtherTransport
  }

  /** The position of a transport in the non-Wasm order: SSL, then TCP, then the rest. */
  function Rank(t: Transport): nat
  {
    match t
    case Ssl => 0
    case Tcp => 1
    case OtherTransport => 2
    case Wss => 3
  }

  /** An entry the filters keep at all: a dict with a truthy `url`. */
  predicate Usable(server: Json)
  {
    server.JObj? && Truthy(Get(server.fields, "url"))
  }

  /** The usable entries of one transport, in input order. */
  function OfTransport(items: seq<Json>, t: Transport): seq<Json>
  {
    if items == [] then []
    else
      var last := items[|items| - 1];
      OfTransport(items[..|items| - 1], t) + (if Usable(last) && TransportOf(last) == t then [last] else [])
  }

  lemma {:induction false} OfTransportHolds(items: seq<Json>, t: Transport)
    ensures forall x :: x in OfTransport(items, t) ==> Usable(x) && TransportOf(x) == t && x in items
  {
    if items != [] {
      OfTransportHolds(items[..|items| - 1], t);
      assert items == items[..|items| - 1] + [items[|items| - 1]];
    }
  }

  /** The first three entries, or all when there are fewer. */
  function Head3(s: seq<Json>): (r: seq<Json>)
    ensures |r| <= 3 && |r| <= |s| && r == s[..|r|]
    ensures |s| >= 3 ==> |r| == 3
  {
    if |s| <= 3 then s else s[..3]
  }

  /** The result of the electrum filters, as a function of the server list. */
  function ElectrumOrder(servers: Json, preferWss: bool, preferred: Json -> bool): seq<Json>
  {
    if !servers.JArr? then []
    else if preferWss then Head3(Prioritized(OfTransport(servers.items, Wss), preferred))
    else Head3(Prioritized(OfTransport(servers.items, Ssl), preferred)
             + Prioritized(OfTransport(servers.items, Tcp), preferred)
             + Prioritized(OfTransport(servers.items, OtherTransport), preferred))
  }

  /** A falsy server list (no list, or an empty one) orders to nothing. */
  lemma ElectrumOrderOfFalsy(servers: Json, preferWss: bool, preferred: Json -> bool)
    requires !Truthy(servers)
    ensures ElectrumOrder(servers, preferWss, preferred) == []
  {
    if servers.JArr? {
      assert OfTransport(servers.items, Ssl) == [] && OfTransport(servers.items, Tcp) == [];
      assert OfTransport(servers.items, OtherTransport) == [] && OfTransport(servers.items, Wss) == [];
    }
  }

  /** The entries of one prioritised transport class. */
  lemma PrioritizedClass(items: seq<Json>, t: Transport, preferred: Json -> bool)
    ensures forall x :: x in Prioritized(OfTransport(items, t), preferred) ==>
      Usable(x) && TransportOf(x) == t && x in items
  {
    OfTransportHolds(items, t);
    PrioritizedPermutes(OfTransport(items, t), preferred);
    forall x | x in Prioritized(OfTransport(items, t), preferred)
      ensures x in OfTransport(items, t)
    {
      assert x in multiset(Prioritized(OfTransport(items, t), preferred));
    }
  }

  /** Three consecutive blocks of increasing rank, each with preferred entries
      first, stay ordered by rank, and preferred-first within a rank. */
  lemma BlocksOrdered(a: seq<Json>, b: seq<Json>, c: seq<Json>, preferred: Json -> bool)
    requires forall x :: x in a ==> TransportOf(x) == Ssl
    requires forall x :: x in b ==> TransportOf(x) == Tcp
    requires forall x :: x in c ==> TransportOf(x) == OtherTransport
    requires forall i, j :: 0 <= i < j < |a| && preferred(a[j]) ==> preferred(a[i])
    requires forall i, j :: 0 <= i < j < |b| && preferred(b[j]) ==> preferred(b[i])
    requires forall i, j :: 0 <= i < j < |c| && preferred(c[j]) ==> preferred(c[i])
    ensures var r := a + b + c;
      forall i, j :: 0 <= i < j < |r| ==>
        && Rank(TransportOf(r[i])) <= Rank(TransportOf(r[j]))
        && (TransportOf(r[i]) == TransportOf(r[j]) && preferred(r[j]) ==> preferred(r[i]))
  {
    var r := a + b + c;
    forall i, j | 0 <= i < j < |r|
      ensures Rank(TransportOf(r[i])) <= Rank(TransportOf(r[j]))
      ensures TransportOf(r[i]) == TransportOf(r[j]) && preferred(r[j]) ==> preferred(r[i])
    {
      if j < |a| {
        assert r[i] == a[i] && r[j] == a[j];
      } else if j < |a| + |b| {
        assert r[j] == b[j - |a|];
        assert r[j] in b;
        if i >= |a| {
          assert r[i] == b[i - |a|];
        } else {
          assert r[i] in a by { assert r[i] == a[i]; }
        }
      } else {
        assert r[j] == c[j - |a| - |b|];
        assert r[j] in c;
        if i >= |a| + |b| {
          assert r[i] == c[i - |a| - |b|];
        } else if i >= |a| {
          assert r[i] in b by { assert r[i] == b[i - |a|]; }
        } else {
          assert r[i] in a by { assert r[i] == a[i]; }
        }
      }
    }
  }

  /**
   * What the electrum filters promise: at most three entries, each a dict with
   * a url taken from the input; only WSS entries in Wasm mode; otherwise never
   * WSS, every SSL entry before every TCP entry before every other entry; and
   * within one transport preferred hosts first.
   */
  lemma ElectrumOrderFacts(servers: Json, preferWss: bool, preferred: Json -> bool)
    ensures var r := ElectrumOrder(servers, preferWss, preferred);
      && |r| <= 3
      && (!servers.JArr? ==> r == [])
      && (forall x :: x in r ==> Usable(x) && x in servers.items)
      && (preferWss ==> forall x :: x in r ==> TransportOf(x) == Wss)
      && (!preferWss ==> forall x :: x in r ==> TransportOf(x) != Wss)
      && (!preferWss ==> forall i, j :: 0 <= i < j < |r| ==> Rank(TransportOf(r[i])) <= Rank(TransportOf(r[j])))
      && (forall i, j :: 0 <= i < j < |r| && TransportOf(r[i]) == TransportOf(r[j]) && preferred(r[j]) ==>
            preferred(r[i]))
  {
    if servers.JArr? {
      var items := servers.items;
      if preferWss {
        assert ElectrumOrder(servers, preferWss, preferred) == Head3(Prioritized(OfTransport(items, Wss), preferred));
        WssOrderFacts(items, preferred);
      } else {
        assert ElectrumOrder(servers, preferWss, preferred) ==
          Head3(Prioritized(OfTransport(items, Ssl), preferred)
                + Prioritized(OfTransport(items, Tcp), preferred)
                + Prioritized(OfTransport(items, OtherTransport), preferred));
        NonWssOrderFacts(items, preferred);
      }
    }
  }

  lemma WssOrderFacts(items: seq<Json>, preferred: Json -> bool)
    ensures var r := Head3(Prioritized(OfTransport(items, Wss), preferred));
      && (forall x :: x in r ==> Usable(x) && x in items && TransportOf(x) == Wss)
      && (forall i, j :: 0 <= i < j < |r| && preferred(r[j]) ==> preferred(r[i]))
  {
    var w := Prioritized(OfTransport(items, Wss), preferred);
    PrioritizedClass(items, Wss, preferred);
    PrioritizedPermutes(OfTransport(items, Wss), preferred);
    var r := Head3(w);
    assert forall x :: x in r ==> x in w;
    forall i, j | 0 <= i < j < |r| && preferred(r[j]) ensures preferred(r[i]) {
      assert r[i] == w[i] && r[j] == w[j];
    }
  }

  lemma NonWssOrderFacts(items: seq<Json>, preferred: Json -> bool)
    ensures var r := Head3(Prioritized(OfTransport(items, Ssl), preferred)
                           + Prioritized(OfTransport(items, Tcp), preferred)
                           + Prioritized(OfTransport(items, OtherTransport), preferred));
      && (forall x :: x in r ==> Usable(x) && x in items && TransportOf(x) != Wss)
      && (forall i, j :: 0 <= i < j < |r| ==> Rank(TransportOf(r[i])) <= Rank(TransportOf(r[j])))
      && (forall i, j :: 0 <= i < j < |r| && TransportOf(r[i]) == TransportOf(r[j]) && preferred(r[j]) ==>
            preferred(r[i]))
  {
    var a := Prioritized(OfTransport(items, Ssl), preferred);
    var b := Prioritized(OfTransport(items, Tcp), preferred);
    var c := Prioritized(OfTransport(items, OtherTransport), preferred);
    PrioritizedClass(items, Ssl, preferred);
    PrioritizedClass(items, Tcp, preferred);
    PrioritizedClass(items, OtherTransport, preferred);
    PrioritizedPermutes(OfTransport(items, Ssl), preferred);
    PrioritizedPermutes(OfTransport(items, Tcp), preferred);
    PrioritizedPermutes(OfTransport(items, OtherTransport), preferred);
    BlocksOrdered(a, b, c, preferred);
    var all := a + b + c;
    var r := Head3(all);
    forall x | x in r ensures Usable(x) && x in items && TransportOf(x) != Wss {
      assert x in all;
      assert x in a || x in b || x in c;
    }
    forall i, j | 0 <= i < j < |r|
      ensures Rank(TransportOf(r[i])) <= Rank(TransportOf(r[j]))
      ensures TransportOf(r[i]) == TransportOf(r[j]) && preferred(r[j]) ==> preferred(r[i])
    {
      assert r[i] == all[i] && r[j] == all[j];
    }
  }

  /** With three or more usable SSL servers, the non-Wasm result is SSL only. */
  lemma SslFillsResult(servers: Json, preferred: Json -> bool)
    requires servers.JArr? && |OfTransport(servers.items, Ssl)| >= 3
    ensures var r := ElectrumOrder(servers, false, preferred);
      |r| == 3 && forall x :: x in r ==> TransportOf(x) == Ssl
  {
    var items := servers.items;
    var a := Prioritized(OfTransport(items, Ssl), preferred);
    FilterSplit(OfTransport(items, Ssl), preferred);
    PrioritizedClass(items, Ssl, preferred);
    var all := a + Prioritized(OfTransport(items, Tcp), preferred)
                 + Prioritized(OfTransport(items, OtherTransport), preferred);
    var r := ElectrumOrder(servers, false, preferred);
    forall x | x in r ensures TransportOf(x) == Ssl {
      var k :| 0 <= k < |r| && r[k] == x;
      assert r[k] == all[k] == a[k];
      assert a[k] in a;
    }
  }

  /** `prioritize_cipig`: a stable partition loop. */
  method PrioritizeHosts(items: seq<Json>, preferred: Json -> bool) returns (r: seq<Json>)
    ensures r == Prioritized(items, preferred)
  {
    var first, rest := SplitByPreference(items, preferred);
    r := first + rest;
  }

  /** The bucketing loop of `_filter_electrum_servers_with_mode`. */
  method BucketByTransport(items: seq<Json>) returns (wss: seq<Json>, ssl: seq<Json>, tcp: seq<Json>, other: seq<Json>)
    ensures wss == OfTransport(items, Wss) && ssl == OfTransport(items, Ssl)
    ensures tcp == OfTransport(items, Tcp) && other == OfTransport(items, OtherTransport)
  {
    wss, ssl, tcp, other := [], [], [], [];
    var i := 0;
    while i < |items|
      invariant 0 <= i <= |items|
      invariant wss == OfTransport(items[..i], Wss) && ssl == OfTransport(items[..i], Ssl)
      invariant tcp == OfTransport(items[..i], Tcp) && other == OfTransport(items[..i], OtherTransport)
    {
      assert items[..i + 1][..i] == items[..i];
      var s := items[i];
      if Usable(s) {
        var proto := TransportOf(s);
        if proto == Wss {
          wss := wss + [s];
        } else if proto == Ssl {
          ssl := ssl + [s];
        } else if proto == Tcp {
          tcp := tcp + [s];
        } else {
          other := other + [s];
        }
      }
      i := i + 1;
    }
    assert items[..i] == items;
  }

  /** `_filter_electrum_servers_with_mode` */
  method FilterElectrumServersWithMode(servers: Json, preferWss: bool) returns (r: seq<Json>)
    ensures r == ElectrumOrder(servers, preferWss, ServerIsPreferred)
  {
    if !servers.JArr? {
      return [];
    }
    var wss, ssl, tcp, other := BucketByTransport(servers.items);
    if preferWss {
      var w := PrioritizeHosts(wss, ServerIsPreferred);
      return Head3(w);
    }
    var sslOrdered := PrioritizeHosts(ssl, ServerIsPreferred);
    var tcpOrdered := PrioritizeHosts(tcp, ServerIsPreferred);
    var otherOrdered := PrioritizeHosts(other, ServerIsPreferred);
    r := Head3(sslOrdered + tcpOrdered + otherOrdered);
  }

  /** The bucketing loop of `_filter_electrum_servers`, which skips WSS entries. */
  method BucketSkippingWss(items: seq<Json>) returns (ssl: seq<Json>, tcp: seq<Json>, other: seq<Json>)
    ensures ssl == OfTransport(items, Ssl) && tcp == OfTransport(items, Tcp)
    ensures other == OfTransport(items, OtherTransport)
  {
    ssl, tcp, other := [], [], [];
    var i := 0;
    while i < |items|
      invariant 0 <= i <= |items|
      invariant ssl == OfTransport(items[..i], Ssl)
      invariant tcp == OfTransport(items[..i], Tcp)
      invariant other == OfTransport(items[..i], OtherTransport)
    {
      assert items[..i + 1][..i] == items[..i];
      var s := items[i];
      if Usable(s) && TransportOf(s) != Wss {
        var proto := TransportOf(s);
        if proto == Ssl {
          ssl := ssl + [s];
        } else if proto == Tcp {
          tcp := tcp + [s];
        } else {
          other := other + [s];
        }
      }
      i := i + 1;
    }
    assert items[..i] == items;
  }

  /** `_filter_electrum_servers`: WSS entries are skipped, cipig hosts first. */
  method FilterElectrumServers(servers: Json) returns (r: seq<Json>)
    ensures r == ElectrumOrder(servers, false, ServerIsCipig)
  {
    if !servers.JArr? {
      return [];
    }
    var ssl, tcp, other := BucketSkippingWss(servers.items);
    var sslOrdered := PrioritizeHosts(ssl, ServerIsCipig);
    var tcpOrdered := PrioritizeHosts(tcp, ServerIsCipig);
    var otherOrdered := PrioritizeHosts(other, ServerIsCipig);
    r := Head3(sslOrdered + tcpOrdered + otherOrdered);
  }

  /** A preference nothing satisfies. */
  predicate NoPreference(server: Json)
  {
    false
  }

  /** The electrum selection of `build_activate_command`: no host preference. */
  function LimitedElectrum(servers: Json): seq<Json>
  {
    if !servers.JArr? then []
    else Head3(OfTransport(servers.items, Ssl) + OfTransport(servers.items, Tcp)
               + OfTransport(servers.items, OtherTransport))
  }

  lemma {:induction false} NoPreferenceKeepsOrder(s: seq<Json>)
    ensures Prioritized(s, NoPreference) == s
  {
    if s != [] {
      NoPreferenceKeepsOrder(s[..|s| - 1]);
      assert s == s[..|s| - 1] + [s[|s| - 1]];
    }
  }

  /** The unprioritised filter is the prioritised one with no preferred host,
      so every ordering fact about the latter holds of it. */
  lemma LimitedElectrumIsUnprioritised(servers: Json)
    ensures LimitedElectrum(servers) == ElectrumOrder(servers, false, NoPreference)
  {
    if servers.JArr? {
      NoPreferenceKeepsOrder(OfTransport(servers.items, Ssl));
      NoPreferenceKeepsOrder(OfTransport(servers.items, Tcp));
      NoPreferenceKeepsOrder(OfTransport(servers.items, OtherTransport));
    }
  }
}
