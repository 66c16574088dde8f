/**
 * The Python values the clients build and receive: JSON data plus None,
 * insertion-ordered dictionaries, truthiness, and the exceptions that
 * escape a call.
 */
module Py {
  import opened Wrappers

  datatype Value =
    | Null
    | Str(s: string)
    | Num(n: int)
    | List(items: seq<Value>)
    | Obj(fields: seq<Entry>)

  datatype Entry = Entry(key: string, val: Value)

  /** A Python dict: its entries in insertion order. */
  type Dict = seq<Entry>

  /** Exceptions that propagate out of a call. */
  datatype PyError =
    | KeyError(missing: string)
    | ValueError(message: string)
    | UnboundLocalError(name: string)
    | RequestException(description: string)

  /** Python truthiness (`if v:`). */
  predicate Truthy(v: Value) {
    match v
    case Null => false
    case Str(s) => s != ""
    case Num(n) => n != 0
    case List(xs) => xs != []
    case Obj(fs) => fs != []
  }

  /** `if x:` for an argument typed `Optional[str]`. */
  predicate Given(x: Option<string>) {
    x.Some? && x.value != ""
  }

  /** `if x:` for an argument typed `Optional[Dict]`. */
  predicate GivenDict(x: Option<Dict>) {
    x.Some? && x.value != []
  }

  /** A Python list of str. */
  function StrList(xs: seq<string>): (v: Value)
    ensures Truthy(v) <==> xs != []
  {
    List(seq(|xs|, i requires 0 <= i < |xs| => Str(xs[i])))
  }

  function Keys(d: Dict): set<string> {
    if d == [] then {} else {d[0].key} + Keys(d[1..])
  }

  /** No key occurs twice, as in every Python dict. */
  predicate DistinctKeys(d: Dict) {
    d == [] || (d[0].key !in Keys(d[1..]) && DistinctKeys(d[1..]))
  }

  /** `d.get(k)`. */
  function Get(d: Dict, k: string): (r: Option<Value>)
    ensures r.Some? <==> k in Keys(d)
  {
    if d == [] then None
    else if d[0].key == k then Some(d[0].val)
    else Get(d[1..], k)
  }

  /**
   * `d[k] = v`: an existing key keeps its place and takes the new value,
   * a new key goes to the end.
   */
  function Set(d: Dict, k: string, v: Value): (r: Dict)
    ensures Keys(r) == Keys(d) + {k}
    ensures Get(r, k) == Some(v)
    ensures forall k' :: k' != k ==> Get(r, k') == Get(d, k')
    ensures DistinctKeys(d) ==> DistinctKeys(r)
    ensures k !in Keys(d) ==> r == d + [Entry(k, v)]
  {
    if d == [] then [Entry(k, v)]
    else if d[0].key == k then [Entry(k, v)] + d[1..]
    else [d[0]] + Set(d[1..], k, v)
  }

  /** The keys an optional argument contributes: `{k}` when it is truthy. */
  function KeyIf(present: bool, k: string): set<string> {
    if present then {k} else {}
  }

  /** A `str` argument whose default is not None: left out by the caller, or passed. */
  datatype StrArg = Omitted | Passed(value: string)

  /** The value the parameter takes: the one passed, or the declared default. */
  function Resolve(a: StrArg, default: string): string {
    if a.Passed? then a.value else default
  }

  /** What a dict holds under the key of an `Optional[str]` argument stored under `if x:`. */
  function Sent(x: Option<string>): Option<Value> {
    if Given(x) then Some(Str(x.value)) else None
  }

  /** What a dict holds under the key of an `Optional[Dict]` argument stored under `if x:`. */
  function SentDict(x: Option<Dict>): Option<Value> {
    if GivenDict(x) then Some(Obj(x.value)) else None
  }

  /** What a dict holds under the key of an `Optional[List[str]]` argument stored under `if x:`. */
  function SentList(x: Option<seq<string>>): Option<Value> {
    if x.Some? && x.value != [] then Some(StrList(x.value)) else None
  }

  /** No string occurs twice. */
  predicate Distinct(ks: seq<string>) {
    forall i, j :: 0 <= i < j < |ks| ==> ks[i] != ks[j]
  }

  /**
   * The dict `d` after the stores `d[ks[i]] = vs[i].value`, in order, where a
   * `None` in `vs` is a store that the builder's `if x:` test skips.
   */
  function StoreAll(d: Dict, ks: seq<string>, vs: seq<Option<Value>>): Dict
    requires |ks| == |vs|
    decreases |ks|
  {
    if ks == [] then d
    else StoreAll(if vs[0].Some? then Set(d, ks[0], vs[0].value) else d, ks[1..], vs[1..])
  }

  /** A key that no store names keeps the value it had. */
  lemma {:induction false} StoreAllKeeps(d: Dict, ks: seq<string>, vs: seq<Option<Value>>, k: string)
    requires |ks| == |vs| && k !in ks
    ensures Get(StoreAll(d, ks, vs), k) == Get(d, k)
    decreases |ks|
  {
    if ks != [] {
      var d' := if vs[0].Some? then Set(d, ks[0], vs[0].value) else d;
      StoreAllKeeps(d', ks[1..], vs[1..], k);
    }
  }

  /** With distinct new keys, each stored key holds its value and each skipped key is absent. */
  lemma {:induction false} StoreAllGet(d: Dict, ks: seq<string>, vs: seq<Option<Value>>)
    requires |ks| == |vs| && Distinct(ks)
    requires forall i :: 0 <= i < |ks| ==> ks[i] !in Keys(d)
    ensures forall i :: 0 <= i < |ks| ==> Get(StoreAll(d, ks, vs), ks[i]) == vs[i]
    decreases |ks|
  {
    if ks != [] {
      var d' := if vs[0].Some? then Set(d, ks[0], vs[0].value) else d;
      StoreAllGet(d', ks[1..], vs[1..]);
      StoreAllKeeps(d', ks[1..], vs[1..], ks[0]);
      forall i | 1 <= i < |ks| ensures Get(StoreAll(d, ks, vs), ks[i]) == vs[i] {
        assert ks[1..][i - 1] == ks[i];
      }
    }
  }

  /** The stores keep the keys distinct and add no key they do not name. */
  lemma {:induction false} StoreAllKeys(d: Dict, ks: seq<string>, vs: seq<Option<Value>>)
    requires |ks| == |vs| && DistinctKeys(d)
    ensures DistinctKeys(StoreAll(d, ks, vs))
    ensures forall k :: k in Keys(StoreAll(d, ks, vs)) ==> k in Keys(d) || k in ks
    decreases |ks|
  {
    if ks != [] {
      var d' := if vs[0].Some? then Set(d, ks[0], vs[0].value) else d;
      StoreAllKeys(d', ks[1..], vs[1..]);
    }
  }

  /** The entries a run of stores with new keys appends, in the order the stores happen. */
  function Stored(ks: seq<string>, vs: seq<Option<Value>>): Dict
    requires |ks| == |vs|
    decreases |ks|
  {
    if ks == [] then []
    else (if vs[0].Some? then [Entry(ks[0], vs[0].value)] else []) + Stored(ks[1..], vs[1..])
  }

  /** Stores of keys the dict does not hold yet append their entries, in order, and move nothing. */
  lemma {:induction false} StoreAllAppends(d: Dict, ks: seq<string>, vs: seq<Option<Value>>)
    requires |ks| == |vs| && Distinct(ks)
    requires forall i :: 0 <= i < |ks| ==> ks[i] !in Keys(d)
    ensures StoreAll(d, ks, vs) == d + Stored(ks, vs)
    decreases |ks|
  {
    if ks != [] {
      var k, rest, vrest := ks[0], ks[1..], vs[1..];
      var d' := if vs[0].Some? then d + [Entry(k, vs[0].value)] else d;
      assert k !in Keys(d);
      assert d' == if vs[0].Some? then Set(d, k, vs[0].value) else d;
      assert Keys(d') <= Keys(d) + {k};
      forall i | 0 <= i < |rest| ensures rest[i] !in Keys(d') {
        assert rest[i] == ks[i + 1];
      }
      StoreAllAppends(d', rest, vrest);
      assert StoreAll(d, ks, vs) == StoreAll(d', rest, vrest);
      assert Stored(ks, vs) == (if vs[0].Some? then [Entry(k, vs[0].value)] else []) + Stored(rest, vrest);
      assert d' + Stored(rest, vrest) == d + Stored(ks, vs);
    }
  }

  /** `a` occurs in `ks` before `b`. */
  predicate Before(ks: seq<string>, a: string, b: string) {
    exists i, j :: 0 <= i < j < |ks| && ks[i] == a && ks[j] == b
  }

  /** The keys of `d` occur in the same relative order as in `ks`. */
  predicate InKeyOrder(d: Dict, ks: seq<string>) {
    forall i, j :: 0 <= i < j < |d| ==> Before(ks, d[i].key, d[j].key)
  }

  /** The appended entries come in the order of their keys in `ks`. */
  lemma {:induction false} StoredInOrder(ks: seq<string>, vs: seq<Option<Value>>)
    requires |ks| == |vs|
    ensures forall e :: e in Stored(ks, vs) ==> e.key in ks
    ensures InKeyOrder(Stored(ks, vs), ks)
    decreases |ks|
  {
    if ks != [] {
      var t := Stored(ks[1..], vs[1..]);
      StoredInOrder(ks[1..], vs[1..]);
      var s := Stored(ks, vs);
      forall i, j | 0 <= i < j < |t| ensures Before(ks, t[i].key, t[j].key) {
        assert Before(ks[1..], t[i].key, t[j].key);
        var a, b :| 0 <= a < b < |ks| - 1 && ks[1..][a] == t[i].key && ks[1..][b] == t[j].key;
        assert ks[a + 1] == t[i].key && ks[b + 1] == t[j].key;
      }
      if vs[0].Some? {
        assert s == [Entry(ks[0], vs[0].value)] + t;
        forall i, j | 0 <= i < j < |s| ensures Before(ks, s[i].key, s[j].key) {
          if i == 0 {
            assert s[j] == t[j - 1] && s[j] in t;
            var b :| 0 <= b < |ks| - 1 && ks[1..][b] == s[j].key;
            assert ks[0] == s[0].key && ks[b + 1] == s[j].key;
          } else {
            assert s[i] == t[i - 1] && s[j] == t[j - 1];
          }
        }
      } else {
        assert s == t;
      }
    }
  }

  /**
   * A dict built the way the endpoint builders build theirs: from `{}`, the
   * stores `ks[i]` = `vs[i]` in order, each `None` skipped.
   */
  method Build(ks: seq<string>, vs: seq<Option<Value>>) returns (d: Dict)
    requires |ks| == |vs| && Distinct(ks)
    ensures DistinctKeys(d)
    ensures forall k :: k in Keys(d) ==> k in ks
    ensures forall i :: 0 <= i < |ks| ==> Get(d, ks[i]) == vs[i]
    ensures InKeyOrder(d, ks)
  {
    StoreAllKeys([], ks, vs);
    StoreAllGet([], ks, vs);
    StoreAllAppends([], ks, vs);
    StoredInOrder(ks, vs);
    d := StoreAll([], ks, vs);
    assert d == Stored(ks, vs);
  }

  /** A dict display `{ks[0]: vs[0], ...}`: every store happens. */
  function Literal(ks: seq<string>, vs: seq<Value>): (d: Dict)
    requires |ks| == |vs| && Distinct(ks)
    ensures DistinctKeys(d)
    ensures forall k :: k in Keys(d) ==> k in ks
    ensures forall i :: 0 <= i < |ks| ==> Get(d, ks[i]) == Some(vs[i])
  {
    var stores := seq(|vs|, i requires 0 <= i < |vs| => Some(vs[i]));
    StoreAllKeys([], ks, stores);
    StoreAllGet([], ks, stores);
    StoreAll([], ks, stores)
  }

  lemma {:induction false} MemberKeyInKeys(d: Dict, e: Entry)
    requires e in d
    ensures e.key in Keys(d)
  {
    if d[0] != e {
      assert e in d[1..];
      MemberKeyInKeys(d[1..], e);
    }
  }
}
