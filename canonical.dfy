/**
 * The pieces every signer builds its message from: the foreign primitives
 * (HMAC, body serialisation), the `k=v&...` query string, and
 * `sorted(params.items())`.
 */
module Canonical {
  import opened Py
  import opened Text

  /**
   * Operations the model does not look inside, passed in as parameters:
   * `sig(key, message)` is `base64(HMAC-SHA256(key, message))` (RFC 2104 with
   * FIPS 180-4 SHA-256, Base64 as in section 4 of RFC 4648), `pyStr` is Python's
   * `str()` of a value that is not a `str`, and `jsonDumps` is `json.dumps`
   * with its default separators.
   */
  datatype Primitives = Primitives(
    sig: (string, string) -> string,
    pyStr: Value -> string,
    jsonDumps: Value -> string)

  /** `f"{v}"`. */
  function Format(p: Primitives, v: Value): string {
    if v.Str? then v.s else p.pyStr(v)
  }

  /** `f"{key}={value}"`. */
  function Pair(p: Primitives, e: Entry): string {
    e.key + "=" + Format(p, e.val)
  }

  /** `"&".join(f"{key}={value}" for key, value in items)`, in the order given. */
  function Query(p: Primitives, items: Dict): (r: string)
    ensures r == "" <==> items == []
  {
    if items == [] then ""
    else if |items| == 1 then Pair(p, items[0])
    else Pair(p, items[0]) + "&" + Query(p, items[1..])
  }

  /** Joining two non-empty runs of items puts one `&` between their queries. */
  lemma {:induction false} QueryJoin(p: Primitives, a: Dict, b: Dict)
    requires a != [] && b != []
    ensures Query(p, a + b) == Query(p, a) + "&" + Query(p, b)
  {
    if |a| == 1 {
      assert (a + b)[1..] == b;
    } else {
      assert (a + b)[1..] == a[1..] + b;
      QueryJoin(p, a[1..], b);
    }
  }

  // ---------------------------------------------------------------------
  // sorted(params.items())

  /** Keys strictly ascending in Python's order of `str`. */
  predicate SortedByKey(d: Dict) {
    forall i, j :: 0 <= i < j < |d| ==> Less(d[i].key, d[j].key)
  }

  function Insert(e: Entry, d: Dict): (r: Dict)
    ensures multiset(r) == multiset(d) + multiset{e}
  {
    if d == [] || Less(e.key, d[0].key) then [e] + d
    else
      assert d == [d[0]] + d[1..];
      [d[0]] + Insert(e, d[1..])
  }

  /**
   * `sorted(params.items())`. The items of a dict have distinct keys, so the
   * tuple comparison never reaches the values and the order is by key alone.
   */
  function SortByKey(d: Dict): (r: Dict)
    ensures multiset(r) == multiset(d)
  {
    if d == [] then []
    else
      assert d == [d[0]] + d[1..];
      Insert(d[0], SortByKey(d[1..]))
  }

  lemma {:induction false} InsertSorted(e: Entry, d: Dict)
    requires SortedByKey(d)
    requires forall i :: 0 <= i < |d| ==> d[i].key != e.key
    ensures SortedByKey(Insert(e, d))
  {
    if d == [] {
    } else if Less(e.key, d[0].key) {
      var r := [e] + d;
      forall j | 0 < j < |r| ensures Less(e.key, r[j].key) {
        if j > 1 {
          LessTransitive(e.key, d[0].key, d[j - 1].key);
        }
      }
    } else {
      LessTotal(e.key, d[0].key);
      InsertSorted(e, d[1..]);
      var t := Insert(e, d[1..]);
      var r := [d[0]] + t;
      forall j | 0 <= j < |t| ensures Less(d[0].key, t[j].key) {
        assert t[j] in multiset(t);
        if t[j] != e {
          assert t[j] in d[1..];
        }
      }
    }
  }

  /** `sorted` puts the items of a dict in strictly ascending key order. */
  lemma {:induction false} SortByKeySorted(d: Dict)
    requires DistinctKeys(d)
    ensures SortedByKey(SortByKey(d))
  {
    if d != [] {
      SortByKeySorted(d[1..]);
      var s := SortByKey(d[1..]);
      forall i | 0 <= i < |s| ensures s[i].key != d[0].key {
        assert s[i] in multiset(d[1..]);
        MemberKeyInKeys(d[1..], s[i]);
      }
      InsertSorted(d[0], s);
    }
  }

  lemma HeadBelowRest(a: Dict, x: Entry)
    requires SortedByKey(a) && a != [] && x in a[1..]
    ensures Less(a[0].key, x.key)
  {
    var j :| 0 <= j < |a| - 1 && a[1..][j] == x;
    assert a[j + 1] == x;
  }

  /** Two strictly sorted arrangements of the same items start with the same item. */
  lemma SortedSameHead(a: Dict, b: Dict)
    requires SortedByKey(a) && SortedByKey(b) && a != []
    requires multiset(a) == multiset(b)
    ensures b != [] && a[0] == b[0]
  {
    assert a[0] in multiset(b);
    if a[0] != b[0] {
      assert a[0] in b[1..];
      HeadBelowRest(b, a[0]);
      assert b[0] in multiset(a);
      assert b[0] in a[1..];
      HeadBelowRest(a, b[0]);
      LessAsymmetric(a[0].key, b[0].key);
    }
  }

  /** Only one strictly sorted arrangement of a given collection of items exists. */
  lemma {:induction false} SortedUnique(a: Dict, b: Dict)
    requires SortedByKey(a) && SortedByKey(b)
    requires multiset(a) == multiset(b)
    ensures a == b
  {
    if a == [] {
      assert |b| == |multiset(b)| == 0;
    } else {
      SortedSameHead(a, b);
      assert a == [a[0]] + a[1..] && b == [b[0]] + b[1..];
      assert multiset(a) == multiset{a[0]} + multiset(a[1..]);
      assert multiset(b) == multiset{b[0]} + multiset(b[1..]);
      assert multiset(a[1..]) == multiset(a) - multiset{a[0]};
      assert multiset(b[1..]) == multiset(b) - multiset{b[0]};
      SortedUnique(a[1..], b[1..]);
    }
  }

  /**
   * The sorted items depend only on which key/value pairs the dict holds,
   * not on the order in which they were inserted.
   */
  lemma SortByKeyPermutationInvariant(d1: Dict, d2: Dict)
    requires DistinctKeys(d1) && DistinctKeys(d2)
    requires multiset(d1) == multiset(d2)
    ensures SortByKey(d1) == SortByKey(d2)
  {
    SortByKeySorted(d1);
    SortByKeySorted(d2);
    SortedUnique(SortByKey(d1), SortByKey(d2));
  }

  /** Strictly ascending strings. */
  predicate Ascending(ks: seq<string>) {
    forall i, j :: 0 <= i < j < |ks| ==> Less(ks[i], ks[j])
  }

  /** Neighbours in ascending order make the whole sequence ascending. */
  lemma {:induction false} AscendingFromNeighbours(ks: seq<string>)
    requires forall i :: 0 <= i < |ks| - 1 ==> Less(ks[i], ks[i + 1])
    ensures Ascending(ks)
  {
    if |ks| >= 2 {
      var t := ks[1..];
      forall i | 0 <= i < |t| - 1 ensures Less(t[i], t[i + 1]) {
        assert t[i] == ks[i + 1] && t[i + 1] == ks[i + 2];
      }
      AscendingFromNeighbours(t);
      forall i, j | 0 <= i < j < |ks| ensures Less(ks[i], ks[j]) {
        if i > 0 {
          assert ks[i] == t[i - 1] && ks[j] == t[j - 1];
        } else if j > 1 {
          assert ks[1] == t[0] && ks[j] == t[j - 1];
          LessTransitive(ks[0], ks[1], ks[j]);
        }
      }
    }
  }

  /** A dict whose keys follow an ascending key list is sorted by key. */
  lemma InKeyOrderSorted(d: Dict, ks: seq<string>)
    requires Ascending(ks) && InKeyOrder(d, ks)
    ensures SortedByKey(d)
  {
    forall i, j | 0 <= i < j < |d| ensures Less(d[i].key, d[j].key) {
      assert Before(ks, d[i].key, d[j].key);
    }
  }

  /** `sorted(d.items())` of a dict already in key order lists the items as they are. */
  lemma SortedIsFixed(d: Dict)
    requires DistinctKeys(d) && SortedByKey(d)
    ensures SortByKey(d) == d
  {
    SortByKeySorted(d);
    SortedUnique(SortByKey(d), d);
  }
}
