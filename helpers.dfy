/**
 * The small helpers of `helpers.py`, `lib_helper.py` and `lib_const.py`:
 * duration text, price and order-count lookups, terminal colours and
 * hyperlinks, centring, and the RPC password generator. The two copies of a
 * helper that behave alike are one member here.
 */
module Helpers {
  import opened Wrappers
  import opened Text
  import opened JsonData

  // ------------------------------------------------------------ sec_to_hms

  /** `divmod(sec, 60)` and `divmod(minutes, 60)`. Python's `divmod` floors;
      for the positive divisor 60 that is Dafny's Euclidean division. */
  function HmsParts(sec: int): (int, int, int)
  {
    var minutes := sec / 60;
    (minutes / 60, minutes % 60, sec % 60)
  }

  /** The parts put back together give the seconds, and minutes and seconds
      are below 60. */
  lemma HmsDecomposition(sec: int)
    ensures var (h, m, s) := HmsParts(sec);
      h * 3600 + m * 60 + s == sec && 0 <= m < 60 && 0 <= s < 60
  {
    var minutes := sec / 60;
    assert minutes * 60 + sec % 60 == sec;
    assert (minutes / 60) * 60 + minutes % 60 == minutes;
  }

  /** The periods with a non-zero value, in their order. */
  function NonZero(periods: seq<(string, int)>): (r: seq<(string, int)>)
    ensures forall x :: x in r <==> x in periods && x.1 != 0
  {
    if periods == [] then []
    else (if periods[0].1 != 0 then [periods[0]] else []) + NonZero(periods[1..])
  }

  /** The text of every period with a non-zero value: the number followed
      by the unit. */
  function Shown(periods: seq<(string, int)>): (r: seq<string>)
    ensures |r| == |NonZero(periods)| <= |periods|
    ensures forall i :: 0 <= i < |r| ==> r[i] == IntToString(NonZero(periods)[i].1) + NonZero(periods)[i].0
    ensures forall i :: 0 <= i < |r| ==> r[i] != ""
    ensures r == [] <==> forall i :: 0 <= i < |periods| ==> periods[i].1 == 0
  {
    if periods == [] then []
    else
      var rest := Shown(periods[1..]);
      assert forall i :: 1 <= i < |periods| ==> periods[i] == periods[1..][i - 1];
      (if periods[0].1 != 0 then [IntToString(periods[0].1) + periods[0].0] else []) + rest
  }

  /** `sec_to_hms` */
  function SecToHms(sec: int): string
  {
    var (h, m, s) := HmsParts(sec);
    Join(Shown([("h", h), ("m", m), ("s", s)]), " ")
  }

  lemma {:induction false} JoinEmpty(parts: seq<string>, sep: string)
    requires forall i :: 0 <= i < |parts| ==> parts[i] != ""
    ensures Join(parts, sep) == "" <==> parts == []
  {
    if |parts| > 1 {
      assert |Join(parts, sep)| >= |parts[0]|;
    }
  }

  /** Zero parts are left out, so the text is empty exactly for zero seconds. */
  lemma SecToHmsEmpty(sec: int)
    ensures SecToHms(sec) == "" <==> sec == 0
  {
    var (h, m, s) := HmsParts(sec);
    HmsDecomposition(sec);
    var periods := [("h", h), ("m", m), ("s", s)];
    JoinEmpty(Shown(periods), " ");
    if sec != 0 {
      assert h != 0 || m != 0 || s != 0;
      assert periods[0].1 != 0 || periods[1].1 != 0 || periods[2].1 != 0;
    }
  }

  /** Under a minute only the seconds are shown. */
  lemma SecondsOnly(sec: int)
    requires 0 < sec < 60
    ensures SecToHms(sec) == IntToString(sec) + "s"
  {
    assert HmsParts(sec) == (0, 0, sec);
    assert Shown([("s", sec)]) == [IntToString(sec) + "s"];
    assert Shown([("m", 0), ("s", sec)]) == Shown([("s", sec)]);
  }

  /** A whole number of hours shows the hours alone. */
  lemma WholeHours(h: int)
    requires h > 0
    ensures SecToHms(h * 3600) == IntToString(h) + "h"
  {
    var sec := h * 3600;
    assert sec == (h * 60) * 60;
    assert sec / 60 == h * 60 && sec % 60 == 0;
    assert (h * 60) / 60 == h && (h * 60) % 60 == 0;
    assert HmsParts(sec) == (h, 0, 0);
    assert Shown([("s", 0)]) == [];
    assert Shown([("m", 0), ("s", 0)]) == [];
    assert Shown([("h", h), ("m", 0), ("s", 0)]) == [IntToString(h) + "h"];
  }

  // -------------------------------------------------------------- get_price

  /** The ticker a price is looked up under: the text before the first "-". */
  function PriceKey(coin: string): string
  {
    if '-' in coin then FirstSegment(coin, '-') else coin
  }

  /** `get_price`: the `last_price` of the coin's entry, or 0 when there is
      none. `fetched` stands for the prices fetched when `current_prices` is
      falsy; the `float()` conversion is not modelled. */
  function GetPrice(coin: string, currentPrices: Json, fetched: Json): (r: Json)
    ensures var prices := if Truthy(currentPrices) then currentPrices else fetched;
      !HasField(prices, PriceKey(coin)) ==> r == JInt(0)
  {
    var prices := if Truthy(currentPrices) then currentPrices else fetched;
    var key := PriceKey(coin);
    if HasField(prices, key) then Field(prices.fields[key], "last_price") else JInt(0)
  }

  /** The suffix after the first "-" does not matter: `KMD-BEP20` is priced as `KMD`. */
  lemma PriceIgnoresSuffix(coin: string, suffix: string, currentPrices: Json, fetched: Json)
    requires '-' !in coin
    ensures GetPrice(coin + "-" + suffix, currentPrices, fetched) == GetPrice(coin, currentPrices, fetched)
  {
    PrefixBeforeDash(coin, suffix);
  }

  lemma {:induction false} PrefixBeforeDash(coin: string, suffix: string)
    requires '-' !in coin
    ensures FirstSegment(coin + "-" + suffix, '-') == coin
  {
    if coin != [] {
      assert (coin + "-" + suffix)[1..] == coin[1..] + "-" + suffix;
      PrefixBeforeDash(coin[1..], suffix);
    }
  }

  // -------------------------------------------------------- get_order_count

  datatype OrderSummary = OrderSummary(maker: Json, taker: Json, count: nat)

  /** `len(maker_orders) + len(taker_orders)` over the two collections found. */
  function Summary(maker: Json, taker: Json): OrderSummary
  {
    OrderSummary(maker, taker, PyLen(maker) + PyLen(taker))
  }

  /** `helpers.get_order_count`: the orders of `result` when present, else
      those at the top level. */
  function OrderCount(orders: Json): (r: OrderSummary)
    ensures r.count == PyLen(r.maker) + PyLen(r.taker)
    ensures HasField(orders, "result") ==>
      && r.maker == GetOr(AsObject(Field(orders, "result")), "maker_orders", JObj(map[]))
      && r.taker == GetOr(AsObject(Field(orders, "result")), "taker_orders", JObj(map[]))
    ensures !HasField(orders, "result") ==>
      && r.maker == GetOr(AsObject(orders), "maker_orders", JObj(map[]))
      && r.taker == GetOr(AsObject(orders), "taker_orders", JObj(map[]))
  {
    var source := if HasField(orders, "result") then Field(orders, "result") else orders;
    Summary(GetOr(AsObject(source), "maker_orders", JObj(map[])), GetOr(AsObject(source), "taker_orders", JObj(map[])))
  }

  /** `lib_helper.get_order_count`: only the orders of `result` are read. */
  function OrderCountNested(orders: Json): (r: OrderSummary)
    ensures r.count == PyLen(r.maker) + PyLen(r.taker)
    ensures HasField(orders, "result") ==>
      && r.maker == GetOr(AsObject(Field(orders, "result")), "maker_orders", JObj(map[]))
      && r.taker == GetOr(AsObject(Field(orders, "result")), "taker_orders", JObj(map[]))
    ensures !HasField(orders, "result") ==> r == OrderSummary(JObj(map[]), JObj(map[]), 0)
  {
    var source := if HasField(orders, "result") then Field(orders, "result") else JObj(map[]);
    Summary(GetOr(AsObject(source), "maker_orders", JObj(map[])), GetOr(AsObject(source), "taker_orders", JObj(map[])))
  }

  /** The two versions agree on a reply with `result`; without one the
      `lib_helper` version counts no orders while the `helpers` version reads
      the top level. */
  lemma OrderCountVersions(orders: Json)
    ensures HasField(orders, "result") ==> OrderCountNested(orders) == OrderCount(orders)
    ensures !HasField(orders, "result") ==>
      && OrderCountNested(orders) == OrderSummary(JObj(map[]), JObj(map[]), 0)
      && OrderCount(orders).maker == GetOr(AsObject(orders), "maker_orders", JObj(map[]))
      && OrderCount(orders).taker == GetOr(AsObject(orders), "taker_orders", JObj(map[]))
  {
  }

  // ---------------------------------------------------------------- colours

  const Esc: char := '\U{1B}'
  const Reset: string := [Esc] + "[0m"

  /** The colour table of `colorize`, the same in `helpers.py` and `lib_const.py`. */
  const Colors: map<string, string> := map[
    "black" := [Esc] + "[30m",
    "error" := [Esc] + "[31m",
    "red" := [Esc] + "[31m",
    "green" := [Esc] + "[32m",
    "orange" := [Esc] + "[33m",
    "blue" := [Esc] + "[34m",
    "purple" := [Esc] + "[35m",
    "cyan" := [Esc] + "[36m",
    "lightgrey" := [Esc] + "[37m",
    "table" := [Esc] + "[37m",
    "darkgrey" := [Esc] + "[90m",
    "lightred" := [Esc] + "[91m",
    "lightgreen" := [Esc] + "[92m",
    "yellow" := [Esc] + "[93m",
    "lightblue" := [Esc] + "[94m",
    "status" := [Esc] + "[94m",
    "pink" := [Esc] + "[95m",
    "lightcyan" := [Esc] + "[96m"
  ]

  /** `colorize(string, color)` */
  function Colorize(s: Json, color: string): string
  {
    if color !in Colors then PyStr(s) else Colors[color] + PyStr(s) + Reset
  }

  /** An unknown colour leaves the text alone; a known one wraps it in an
      escape code that starts with ESC and the reset sequence, so the text can
      be read back between them. */
  lemma ColorizeWraps(s: Json, color: string)
    ensures color !in Colors ==> Colorize(s, color) == PyStr(s)
    ensures color in Colors ==>
      var r := Colorize(s, color);
      var code := Colors[color];
      && |r| == |code| + |PyStr(s)| + |Reset|
      && r[0] == Esc
      && r[|code|..|r| - |Reset|] == PyStr(s)
      && r[|r| - |Reset|..] == Reset
  {
    if color in Colors {
      var r := Colorize(s, color);
      var code := Colors[color];
      assert |code| > 0 && code[0] == Esc;
      assert r == code + PyStr(s) + Reset;
      assert r[|code|..|r| - |Reset|] == PyStr(s);
    }
  }

  // ------------------------------------------------------------ hyperlinks

  /** `ESC ] 8 ; ; url ESC \` */
  function HyperlinkOpen(url: string): string
  {
    [Esc] + "]8;;" + url + [Esc, '\\']
  }

  const HyperlinkClose: string := [Esc] + "]8;;" + [Esc, '\\']

  /** `format_hyperlink(label, url)` */
  function FormatHyperlink(caption: string, url: string): string
  {
    HyperlinkOpen(url) + caption + HyperlinkClose
  }

  /** The url and the label can be read back from a hyperlink. */
  lemma HyperlinkParts(caption: string, url: string)
    ensures var r := FormatHyperlink(caption, url);
      && |r| == |url| + |caption| + 14
      && r[5..5 + |url|] == url
      && r[7 + |url|..7 + |url| + |caption|] == caption
      && r[|r| - 7..] == HyperlinkClose
  {
    var r := FormatHyperlink(caption, url);
    assert |HyperlinkOpen(url)| == 7 + |url|;
    assert |HyperlinkClose| == 7;
    assert r == HyperlinkOpen(url) + caption + HyperlinkClose;
    assert HyperlinkOpen(url) == [Esc] + "]8;;" + url + [Esc, '\\'];
    assert HyperlinkOpen(url)[5..5 + |url|] == url;
  }

  // ---------------------------------------------------------- center_visible

  /** `center_visible(text, width)`; `strip` stands for
      `strip_ansi_sequences`, which removes the escape sequences. */
  function CenterVisible(text: string, width: int, strip: string -> string): string
  {
    var visible := |strip(text)|;
    if visible >= width then text
    else
      var pad := width - visible;
      Spaces(pad / 2) + text + Spaces(pad - pad / 2)
  }

  /** Text at least as wide as `width` is returned as it is; narrower text
      gets `pad // 2` spaces on the left and the rest on the right, so its
      visible width becomes `width`. */
  lemma CenterVisibleFacts(text: string, width: int, strip: string -> string)
    ensures var visible := |strip(text)|;
      var r := CenterVisible(text, width, strip);
      && (visible >= width ==> r == text)
      && (visible < width ==>
            exists left: nat, right: nat ::
              && r == Spaces(left) + text + Spaces(right)
              && left <= right <= left + 1
              && left + visible + right == width)
  {
    var visible := |strip(text)|;
    if visible < width {
      var pad := width - visible;
      var left: nat, right: nat := pad / 2, pad - pad / 2;
      assert CenterVisible(text, width, strip) == Spaces(left) + text + Spaces(right);
    }
  }

  // ------------------------------------------------------- generate_rpc_pass

  const AsciiLowercase: string := "abcdefghijklmnopqrstuvwxyz"
  const AsciiUppercase: string := "ABCDEFGHIJKLMNOPQRSTUVWXYZ"
  const Digits: string := "0123456789"
  const SpecialChars: string := "@~-_|():+"

  /** The two ways `generate_rpc_pass` raises ValueError: `randint(1, 0)`
      for a length of 1 to 3, and `random.sample` asked for more characters
      than an alphabet has. */
  datatype PassError = EmptyRange | SampleLargerThanPopulation

  predicate PassChar(c: char)
  {
    c in AsciiLowercase || c in AsciiUppercase || c in Digits || c in SpecialChars
  }

  predicate HasCharIn(p: string, alphabet: string)
  {
    exists i :: 0 <= i < |p| && p[i] in alphabet
  }

  /** At least one lower-case letter, upper-case letter, digit and special character. */
  predicate HasEachClass(p: string)
  {
    HasCharIn(p, AsciiLowercase) && HasCharIn(p, AsciiUppercase) && HasCharIn(p, Digits) && HasCharIn(p, SpecialChars)
  }

  /** Every character comes from one of the four alphabets. */
  predicate AllPassChars(p: string)
  {
    forall i :: 0 <= i < |p| ==> PassChar(p[i])
  }

  /** `int(length / 4)`: division truncated toward zero. */
  function Quarter(length: int): int
  {
    if length >= 0 then length / 4 else -((-length) / 4)
  }

  lemma QuarterBounds(length: int)
    ensures 1 <= length <= 3 ==> Quarter(length) == 0
    ensures length >= 4 ==> Quarter(length) >= 1
    ensures length < 40 ==> Quarter(length) <= 9
  {
  }

  /** `random.sample(alphabet, k)` joined: `k` characters from distinct
      positions, or ValueError when `k` is larger than the alphabet. */
  method SampleChars(alphabet: string, k: nat) returns (r: Result<string, PassError>)
    ensures k > |alphabet| ==> r == Err(SampleLargerThanPopulation)
    ensures k <= |alphabet| ==> r.Ok? && |r.value| == k && multiset(r.value) <= multiset(alphabet)
  {
    if k > |alphabet| {
      return Err(SampleLargerThanPopulation);
    }
    assert alphabet == alphabet[..k] + alphabet[k..];
    assert multiset(alphabet[..k]) <= multiset(alphabet);
    var pick: string :| |pick| == k && multiset(pick) <= multiset(alphabet);
    return Ok(pick);
  }

  lemma SampleMembers(pick: string, alphabet: string)
    requires multiset(pick) <= multiset(alphabet)
    ensures forall i :: 0 <= i < |pick| ==> pick[i] in alphabet
  {
    forall i | 0 <= i < |pick| ensures pick[i] in alphabet {
      assert pick[i] in multiset(pick);
    }
  }

  /** A permutation keeps which characters occur. */
  lemma PermutationKeepsChars(p: string, q: string)
    requires multiset(p) == multiset(q)
    ensures AllPassChars(p) ==> AllPassChars(q)
    ensures HasEachClass(p) ==> HasEachClass(q)
  {
    forall i | 0 <= i < |q| ensures q[i] in p {
      assert q[i] in multiset(q);
    }
    forall alphabet: string | HasCharIn(p, alphabet) ensures HasCharIn(q, alphabet) {
      var i :| 0 <= i < |p| && p[i] in alphabet;
      assert p[i] in multiset(p);
      var j :| 0 <= j < |q| && q[j] == p[i];
    }
  }

  /** A sample of one alphabet: at least one character, all from the alphabet. */
  predicate DrawnFrom(s: string, alphabet: string)
  {
    |s| >= 1 && forall i :: 0 <= i < |s| ==> s[i] in alphabet
  }

  lemma RoundFacts(lower: string, upper: string, digits: string, special: string)
    requires DrawnFrom(lower, AsciiLowercase) && DrawnFrom(upper, AsciiUppercase)
    requires DrawnFrom(digits, Digits) && DrawnFrom(special, SpecialChars)
    ensures var round := lower + upper + digits + special;
      |round| >= 4 && HasEachClass(round) && AllPassChars(round)
  {
    var round := lower + upper + digits + special;
    var a, b, c := |lower|, |lower| + |upper|, |lower| + |upper| + |digits|;
    assert round[0] == lower[0];
    assert round[a] == upper[0];
    assert round[b] == digits[0];
    assert round[c] == special[0];
    forall i | 0 <= i < |round| ensures PassChar(round[i]) {
      if i < a {
        assert round[i] == lower[i];
      } else if i < b {
        assert round[i] == upper[i - a];
      } else if i < c {
        assert round[i] == digits[i - b];
      } else {
        assert round[i] == special[i - c];
      }
    }
  }

  /** A sample of between 1 and `quart` characters of `alphabet`, the count
      itself drawn at random. */
  method DrawClass(alphabet: string, quart: int) returns (r: Result<string, PassError>)
    requires quart >= 1
    ensures r.Ok? ==> DrawnFrom(r.value, alphabet)
    ensures r.Err? ==> r.error == SampleLargerThanPopulation
    ensures quart <= |alphabet| ==> r.Ok?
  {
    var k: int :| 1 <= k <= quart;
    r := SampleChars(alphabet, k);
    if r.Ok? {
      SampleMembers(r.value, alphabet);
    }
  }

  /** One round of the loop: a sample of each alphabet, in order. */
  method PassRound(quart: int) returns (r: Result<string, PassError>)
    requires quart >= 1
    ensures r.Ok? ==> |r.value| >= 4 && HasEachClass(r.value) && AllPassChars(r.value)
    ensures r.Err? ==> r.error == SampleLargerThanPopulation
    ensures quart <= 9 ==> r.Ok?
  {
    var lower := DrawClass(AsciiLowercase, quart);
    if lower.Err? { return Err(lower.error); }
    var upper := DrawClass(AsciiUppercase, quart);
    if upper.Err? { return Err(upper.error); }
    var digits := DrawClass(Digits, quart);
    if digits.Err? { return Err(digits.error); }
    var special := DrawClass(SpecialChars, quart);
    if special.Err? { return Err(special.error); }
    RoundFacts(lower.value, upper.value, digits.value, special.value);
    return Ok(lower.value + upper.value + digits.value + special.value);
  }

  lemma AppendKeepsClasses(p: string, q: string)
    requires AllPassChars(p) && AllPassChars(q) && HasEachClass(q)
    ensures AllPassChars(p + q) && HasEachClass(p + q)
  {
    forall i | 0 <= i < |p + q| ensures PassChar((p + q)[i]) {
      if i < |p| {
        assert (p + q)[i] == p[i];
      } else {
        assert (p + q)[i] == q[i - |p|];
      }
    }
    forall alphabet: string | HasCharIn(q, alphabet) ensures HasCharIn(p + q, alphabet) {
      var i :| 0 <= i < |q| && q[i] in alphabet;
      assert (p + q)[|p| + i] == q[i];
    }
  }

  /** `generate_rpc_pass(length)`: rounds of samples until the text is at
      least `length` long, then shuffled. */
  method GenerateRpcPass(length: int) returns (r: Result<string, PassError>)
    ensures length <= 0 ==> r == Ok("")
    ensures 1 <= length <= 3 ==> r == Err(EmptyRange)
    ensures 4 <= length < 40 ==> r.Ok?
    ensures r.Ok? && length >= 1 ==>
      && |r.value| >= length
      && HasEachClass(r.value)
      && AllPassChars(r.value)
    ensures r.Err? && length >= 4 ==> r.error == SampleLargerThanPopulation
  {
    var quart := Quarter(length);
    QuarterBounds(length);
    var pass: string := "";
    while |pass| < length
      invariant AllPassChars(pass)
      invariant pass != [] ==> HasEachClass(pass) && quart >= 1
      decreases length - |pass|
    {
      if quart < 1 {
        return Err(EmptyRange);
      }
      var round := PassRound(quart);
      if round.Err? {
        return Err(round.error);
      }
      AppendKeepsClasses(pass, round.value);
      pass := pass + round.value;
    }
    var shuffled: string :| multiset(shuffled) == multiset(pass);
    assert |shuffled| == |multiset(shuffled)| == |pass|;
    PermutationKeepsChars(pass, shuffled);
    return Ok(shuffled);
  }
}
