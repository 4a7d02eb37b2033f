/**
 * JSON values as the Python core sees them after `json.load`, together with
 * the few Python operations it applies to them: truthiness, `a or b`,
 * `dict.get`, `is True`, `str()`, `int()` and `len()`.
 *
 * Python's `None` is `JNull`: a missing key read with `dict.get` and a key
 * stored with the value `null` give the same `None` in the source too.
 */
module JsonData {
  import opened Wrappers
  import opened Text

  datatype Json =
    | JNull
    | JBool(b: bool)
    | JInt(i: int)
    | JStr(s: string)
    | JArr(items: seq<Json>)
    | JObj(fields: map<string, Json>)

  type Object = map<string, Json>

  /** Python truthiness of a JSON value. */
  predicate Truthy(j: Json)
  {
    match j
    case JNull => false
    case JBool(b) => b
    case JInt(i) => i != 0
    case JStr(s) => s != []
    case JArr(a) => a != []
    case JObj(m) => m != map[]
  }

  /** Python's `a or b` */
  function Or(a: Json, b: Json): Json
  {
    if Truthy(a) then a else b
  }

  /** `a or b` is truthy exactly when one of its operands is. */
  lemma OrTruthy(a: Json, b: Json)
    ensures Truthy(Or(a, b)) <==> Truthy(a) || Truthy(b)
  {
  }

  /** `d.get(k)` */
  function Get(d: Object, k: string): Json
  {
    if k in d then d[k] else JNull
  }

  /** `d.get(k, default)` */
  function GetOr(d: Object, k: string, default: Json): Json
  {
    if k in d then d[k] else default
  }

  /** The name Python gives the type of a decoded JSON value. */
  function PyTypeName(j: Json): string
  {
    match j
    case JNull => "NoneType"
    case JBool(_) => "bool"
    case JInt(_) => "int"
    case JStr(_) => "str"
    case JArr(_) => "list"
    case JObj(_) => "dict"
  }

  /** A value the source uses as a dict; any other value reads as `{}`. */
  function AsObject(j: Json): Object
  {
    if j.JObj? then j.fields else map[]
  }

  /** A value the source iterates as a list; any other value reads as `[]`. */
  function AsList(j: Json): seq<Json>
  {
    if j.JArr? then j.items else []
  }

  /** The values a `for` loop visits when the source iterates a value that
      is meant to be a list: a list yields its items and a string its
      characters, each as a one-character string. Dicts and other values
      yield nothing here. */
  function Iterated(j: Json): (r: seq<Json>)
    ensures j.JArr? ==> r == j.items
    ensures j.JStr? ==> |r| == |j.s| && forall i :: 0 <= i < |r| ==> r[i] == JStr([j.s[i]])
    ensures !j.JArr? && !j.JStr? ==> r == []
  {
    if j.JArr? then j.items
    else if j.JStr? then seq(|j.s|, i requires 0 <= i < |j.s| => JStr([j.s[i]]))
    else []
  }

  /** A falsy value iterates as nothing, as `x or []` does. */
  lemma IteratedFalsy(j: Json)
    requires !Truthy(j)
    ensures Iterated(j) == []
  {
  }

  /** `d.get(k)` on a value the source uses as a dict */
  function Field(j: Json, k: string): Json
  {
    Get(AsObject(j), k)
  }

  /** `k in d` on a value the source uses as a dict */
  predicate HasField(j: Json, k: string)
  {
    j.JObj? && k in j.fields
  }

  /** `x is True` */
  predicate IsTrue(j: Json)
  {
    j == JBool(true)
  }

  /** `x is not None` */
  predicate IsPresent(j: Json)
  {
    !j.JNull?
  }

  /** `str(x)`; the text of a list or dict (its repr) is not modelled and reads as "". */
  function PyStr(j: Json): string
  {
    match j
    case JNull => "None"
    case JBool(b) => if b then "True" else "False"
    case JInt(i) => IntToString(i)
    case JStr(s) => s
    case JArr(_) => ""
    case JObj(_) => ""
  }

  /** `int(x)`; `None` where Python raises ValueError or TypeError, and
      also for text written with non-ASCII decimal digits. */
  function IntCoerce(j: Json): (r: Option<int>)
    ensures j.JInt? ==> r == Some(j.i)
    ensures j == JBool(true) ==> r == Some(1)
    ensures j == JBool(false) ==> r == Some(0)
    ensures j.JNull? || j.JArr? || j.JObj? ==> r.None?
  {
    match j
    case JInt(i) => Some(i)
    case JBool(b) => Some(if b then 1 else 0)
    case JStr(s) => ParseInt(s)
    case _ => None
  }

  /** `int(x)` applied to the text of a number gives the number back. */
  lemma IntCoerceOfDecimalText(i: int)
    ensures IntCoerce(JStr(IntToString(i))) == Some(i)
  {
    ParseIntOfIntToString(i);
  }

  /** `len(x)`; values without a length read as 0. */
  function PyLen(j: Json): nat
  {
    match j
    case JStr(s) => |s|
    case JArr(a) => |a|
    case JObj(m) => |m.Keys|
    case _ => 0
  }

  /** A JSON object whose key order matters: its `items()` in order. The
      type does not force distinct keys; `DistinctKeys` states it where a
      proof needs it. */
  type Items = seq<(string, Json)>

  /** No key occurs twice, as in a decoded JSON object. */
  predicate DistinctKeys(items: Items)
  {
    forall i, j :: 0 <= i < j < |items| ==> items[i].0 != items[j].0
  }

  predicate HasKey(items: Items, k: string)
  {
    exists i :: 0 <= i < |items| && items[i].0 == k
  }

  /** `d.get(k)` on an ordered object: the value of the first entry with key `k`. */
  function Lookup(items: Items, k: string): (r: Json)
    ensures !HasKey(items, k) ==> r == JNull
    ensures HasKey(items, k) ==> exists i :: 0 <= i < |items| && items[i] == (k, r)
  {
    if items == [] then JNull
    else if items[0].0 == k then items[0].1
    else
      var r := Lookup(items[1..], k);
      assert HasKey(items[1..], k) ==> exists i :: 0 <= i < |items[1..]| && items[1..][i] == (k, r);
      assert HasKey(items, k) ==> HasKey(items[1..], k) by {
        if HasKey(items, k) {
          var i :| 0 <= i < |items| && items[i].0 == k;
          assert items[1..][i - 1].0 == k;
        }
      }
      r
  }

  /** With distinct keys, every entry is what a lookup of its key finds. */
  lemma {:induction false} LookupFindsEntry(items: Items, i: nat)
    requires DistinctKeys(items) && i < |items|
    ensures Lookup(items, items[i].0) == items[i].1
  {
    if i > 0 {
      LookupFindsEntry(items[1..], i - 1);
    }
  }

  /** `d[k] = v` on an ordered object: an existing key keeps its place, a new key goes last. */
  function Put(items: Items, k: string, v: Json): (r: Items)
  {
    if items == [] then [(k, v)]
    else if items[0].0 == k then [(k, v)] + items[1..]
    else [items[0]] + Put(items[1..], k, v)
  }

  /** Assigning a key sets that key and leaves every other key as it was. */
  lemma {:induction false} PutLookup(items: Items, k: string, v: Json, k2: string)
    ensures Lookup(Put(items, k, v), k2) == if k2 == k then v else Lookup(items, k2)
  {
    if items != [] && items[0].0 != k {
      PutLookup(items[1..], k, v, k2);
    }
  }

  /** The keys of an ordered object are its first key and the keys of the rest. */
  lemma HasKeyCons(head: (string, Json), tail: Items, k: string)
    ensures HasKey([head] + tail, k) <==> head.0 == k || HasKey(tail, k)
  {
    var r := [head] + tail;
    if HasKey(tail, k) {
      var i :| 0 <= i < |tail| && tail[i].0 == k;
      assert r[i + 1].0 == k;
    }
    if HasKey(r, k) && head.0 != k {
      var i :| 0 <= i < |r| && r[i].0 == k;
      assert tail[i - 1].0 == k;
    }
    assert r[0] == head;
  }

  /** Assigning a key adds exactly that key. */
  lemma {:induction false} PutKeys(items: Items, k: string, v: Json, k2: string)
    ensures HasKey(Put(items, k, v), k2) <==> k2 == k || HasKey(items, k2)
  {
    if items == [] {
      HasKeyCons((k, v), [], k2);
      assert [(k, v)] + [] == [(k, v)];
    } else {
      assert items == [items[0]] + items[1..];
      HasKeyCons(items[0], items[1..], k2);
      if items[0].0 == k {
        HasKeyCons((k, v), items[1..], k2);
      } else {
        PutKeys(items[1..], k, v, k2);
        HasKeyCons(items[0], Put(items[1..], k, v), k2);
      }
    }
  }

  /** Assigning a key keeps the keys of an ordered object distinct. */
  lemma {:induction false} PutDistinct(items: Items, k: string, v: Json)
    requires DistinctKeys(items)
    ensures DistinctKeys(Put(items, k, v))
  {
    if items != [] && items[0].0 != k {
      PutDistinct(items[1..], k, v);
      var r := Put(items, k, v);
      forall j | 0 < j < |r| ensures r[0].0 != r[j].0 {
        PutKeys(items[1..], k, v, items[0].0);
        forall i | 0 <= i < |items[1..]| ensures items[1..][i].0 != items[0].0 {
          assert items[1..][i] == items[i + 1];
        }
        assert Put(items[1..], k, v)[j - 1].0 == r[j].0;
      }
    }
  }

  /** The keys of an ordered object, in order: `list(d.keys())`. */
  function KeyList(items: Items): (r: seq<string>)
    ensures |r| == |items| && forall i :: 0 <= i < |items| ==> r[i] == items[i].0
  {
    seq(|items|, i requires 0 <= i < |items| => items[i].0)
  }

  /** The fields of `d` among `keys` that are present: `if k in d: node[k] = d[k]`. */
  function PickPresent(d: Object, keys: set<string>): (r: Object)
    ensures r.Keys == d.Keys * keys && forall k :: k in r ==> r[k] == d[k]
  {
    map k | k in d && k in keys :: d[k]
  }

  /** The truthy fields of `d` among `keys`, each copied as it is. */
  function PickTruthy(d: Object, keys: set<string>): (r: Object)
    ensures forall k :: k in r <==> k in d && k in keys && Truthy(d[k])
    ensures forall k :: k in r ==> r[k] == d[k]
  {
    map k | k in d && k in keys && Truthy(d[k]) :: d[k]
  }

  /** The fields of `d` among `keys` that are not `None`, each copied as it is. */
  function PickNotNone(d: Object, keys: set<string>): (r: Object)
    ensures forall k :: k in r <==> k in d && k in keys && d[k] != JNull
    ensures forall k :: k in r ==> r[k] == d[k]
  {
    map k | k in d && k in keys && d[k] != JNull :: d[k]
  }

  /** The list a loop builds that visits `s` in order and appends what `f`
      makes of an entry, skipping the entries `f` rejects. */
  function Collect(s: seq<Json>, f: Json -> Option<Json>): (r: seq<Json>)
    ensures |r| <= |s|
  {
    if s == [] then []
    else
      var last := f(s[|s| - 1]);
      Collect(s[..|s| - 1], f) + (if last.Some? then [last.value] else [])
  }

  /** Every collected value comes from an entry of the input. */
  lemma {:induction false} CollectFrom(s: seq<Json>, f: Json -> Option<Json>)
    ensures forall v :: v in Collect(s, f) ==> exists x :: x in s && f(x) == Some(v)
  {
    if s != [] {
      CollectFrom(s[..|s| - 1], f);
      var init := s[..|s| - 1];
      forall v | v in Collect(s, f) ensures exists x :: x in s && f(x) == Some(v) {
        if v in Collect(init, f) {
          var x :| x in init && f(x) == Some(v);
          assert x in s;
        } else {
          assert f(s[|s| - 1]) == Some(v);
        }
      }
    }
  }

  /** The loop keeps nothing exactly when no entry is kept. */
  lemma {:induction false} CollectEmpty(s: seq<Json>, f: Json -> Option<Json>)
    ensures Collect(s, f) == [] <==> forall x :: x in s ==> f(x).None?
  {
    if s != [] {
      CollectEmpty(s[..|s| - 1], f);
      assert s == s[..|s| - 1] + [s[|s| - 1]];
    }
  }

  /** When every entry is kept, the loop keeps them all, in order. */
  lemma {:induction false} CollectKeepsAll(s: seq<Json>, f: Json -> Option<Json>)
    requires forall x :: x in s ==> f(x).Some?
    ensures |Collect(s, f)| == |s|
    ensures forall i :: 0 <= i < |s| ==> Collect(s, f)[i] == f(s[i]).value
  {
    if s != [] {
      var init := s[..|s| - 1];
      assert forall x :: x in init ==> x in s;
      CollectKeepsAll(init, f);
    }
  }

  method CollectEntries(s: seq<Json>, f: Json -> Option<Json>) returns (r: seq<Json>)
    ensures r == Collect(s, f)
  {
    r := [];
    var i := 0;
    while i < |s|
      invariant 0 <= i <= |s|
      invariant r == Collect(s[..i], f)
    {
      assert s[..i + 1][..i] == s[..i];
      var v := f(s[i]);
      if v.Some? {
        r := r + [v.value];
      }
      i := i + 1;
    }
    assert s[..i] == s;
  }

  /** The list a loop builds that appends `f` of every entry of `s`, in order. */
  function MapAll(s: seq<Json>, f: Json -> Json): (r: seq<Json>)
    ensures |r| == |s| && forall i :: 0 <= i < |s| ==> r[i] == f(s[i])
  {
    if s == [] then [] else MapAll(s[..|s| - 1], f) + [f(s[|s| - 1])]
  }

  method MapEntries(s: seq<Json>, f: Json -> Json) returns (r: seq<Json>)
    ensures r == MapAll(s, f)
  {
    r := [];
    var i := 0;
    while i < |s|
      invariant 0 <= i <= |s|
      invariant r == MapAll(s[..i], f)
    {
      assert s[..i + 1][..i] == s[..i];
      r := r + [f(s[i])];
      i := i + 1;
    }
    assert s[..i] == s;
  }

  /** A chain of keys that exists in `j` through dicts: `k1 in j and k2 in j[k1] and ...`. */
  predicate HasPath(j: Json, path: seq<string>)
    decreases |path|
  {
    path == [] || (j.JObj? && path[0] in j.fields && HasPath(j.fields[path[0]], path[1..]))
  }

  /** `j[k1][k2]...`, `None` where the chain breaks. */
  function GetIn(j: Json, path: seq<string>): Json
    decreases |path|
  {
    if path == [] then j
    else if j.JObj? && path[0] in j.fields then GetIn(j.fields[path[0]], path[1..])
    else JNull
  }

  /** `j[k1][k2]... = v` on a chain that exists. */
  function SetIn(j: Json, path: seq<string>, v: Json): (r: Json)
    requires HasPath(j, path)
    ensures path != [] ==> r.JObj? && r.fields.Keys == j.fields.Keys
    decreases |path|
  {
    if path == [] then v
    else JObj(j.fields[path[0] := SetIn(j.fields[path[0]], path[1..], v)])
  }

  /** Two chains with the same first key are prefixes of each other as their tails are. */
  lemma PrefixTail(a: seq<string>, b: seq<string>)
    requires a != [] && b != [] && a[0] == b[0]
    ensures (a <= b <==> a[1..] <= b[1..]) && (a < b <==> a[1..] < b[1..])
  {
    assert a == [a[0]] + a[1..] && b == [b[0]] + b[1..];
  }

  /** After an assignment the chain still exists and holds the new value. */
  lemma {:induction false} SetInGetIn(j: Json, path: seq<string>, v: Json)
    requires HasPath(j, path)
    ensures HasPath(SetIn(j, path, v), path) && GetIn(SetIn(j, path, v), path) == v
    decreases |path|
  {
    if path != [] {
      SetInGetIn(j.fields[path[0]], path[1..], v);
    }
  }

  /** An assignment keeps every chain that does not run through the assigned value. */
  lemma {:induction false} SetInKeepsPath(j: Json, path: seq<string>, v: Json, q: seq<string>)
    requires HasPath(j, path) && !(path < q)
    ensures HasPath(SetIn(j, path, v), q) <==> HasPath(j, q)
    decreases |path|
  {
    if path != [] && q != [] && q[0] == path[0] {
      PrefixTail(path, q);
      SetInKeepsPath(j.fields[path[0]], path[1..], v, q[1..]);
    }
  }

  /** An assignment leaves the value at every other chain as it was. */
  lemma {:induction false} SetInGetOther(j: Json, path: seq<string>, v: Json, q: seq<string>)
    requires HasPath(j, path) && !(path <= q) && !(q <= path)
    ensures GetIn(SetIn(j, path, v), q) == GetIn(j, q)
    decreases |path|
  {
    if q[0] == path[0] {
      PrefixTail(path, q);
      PrefixTail(q, path);
      SetInGetOther(j.fields[path[0]], path[1..], v, q[1..]);
    }
  }
}
