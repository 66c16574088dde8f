/** The signer of the okxpy package (okxpy/auth.py). */
module Auth {
  import opened Wrappers
  import opened Py
  import opened Text
  import opened Timestamp
  import opened Canonical

  /** What `sign` returns: `(signature, timestamp)`. */
  datatype Signed = Signed(signature: string, timestamp: string)

  /**
   * The message `sign` hands to HMAC. The method is compared case-sensitively:
   * only exactly `"GET"` with a non-empty params dict appends `?` and the
   * key-sorted query, only exactly `"POST"` with a non-empty body appends
   * `str(body)`; everything else signs timestamp, method and path alone.
   */
  function Message(p: Primitives, ts: string, verb: string, path: string,
                   params: Option<Dict>, body: Option<Dict>): (r: string)
    ensures |r| >= |ts + verb + path| && r[..|ts + verb + path|] == ts + verb + path
    ensures verb != "GET" && verb != "POST" ==> r == ts + verb + path
    ensures verb == "GET" && !GivenDict(params) ==> r == ts + verb + path
    ensures verb == "POST" && !GivenDict(body) ==> r == ts + verb + path
  {
    if verb == "GET" && GivenDict(params) then
      ts + verb + path + "?" + Query(p, SortByKey(params.value))
    else if verb == "POST" && GivenDict(body) then
      ts + verb + path + p.pyStr(Obj(body.value))
    else
      ts + verb + path
  }

  /** The six headers every okxpy request carries, in the order `get_headers` writes them. */
  function HeaderDict(apiKey: string, signature: string, ts: string,
                      passphrase: string, projectId: string): (h: Dict)
    ensures DistinctKeys(h)
    ensures Keys(h) == {"Content-Type", "OK-ACCESS-KEY", "OK-ACCESS-SIGN", "OK-ACCESS-TIMESTAMP",
                        "OK-ACCESS-PASSPHRASE", "OK-ACCESS-PROJECT"}
    ensures Get(h, "Content-Type") == Some(Str("application/json"))
    ensures Get(h, "OK-ACCESS-KEY") == Some(Str(apiKey))
    ensures Get(h, "OK-ACCESS-SIGN") == Some(Str(signature))
    ensures Get(h, "OK-ACCESS-TIMESTAMP") == Some(Str(ts))
    ensures Get(h, "OK-ACCESS-PASSPHRASE") == Some(Str(passphrase))
    ensures Get(h, "OK-ACCESS-PROJECT") == Some(Str(projectId))
  {
    var h0 := Set([], "Content-Type", Str("application/json"));
    var h1 := Set(h0, "OK-ACCESS-KEY", Str(apiKey));
    var h2 := Set(h1, "OK-ACCESS-SIGN", Str(signature));
    var h3 := Set(h2, "OK-ACCESS-TIMESTAMP", Str(ts));
    var h4 := Set(h3, "OK-ACCESS-PASSPHRASE", Str(passphrase));
    Set(h4, "OK-ACCESS-PROJECT", Str(projectId))
  }

  /** `OKXAuth`: the credentials, stored as given. */
  datatype OKXAuth = OKXAuth(apiKey: string, secretKey: string, passphrase: string, projectId: string)
  {
    /** `sign`: one timestamp, used both as the message prefix and as the returned timestamp. */
    function Sign(p: Primitives, now: Instant, verb: string, path: string,
                  params: Option<Dict>, body: Option<Dict>): (r: Signed)
      requires Valid(now)
      ensures WellFormed(r.timestamp) && Parse(r.timestamp) == Some(Truncated(now))
      ensures r.signature == p.sig(secretKey, Message(p, r.timestamp, verb, path, params, body))
    {
      ParseRoundTrip(now);
      var ts := UtcTimestamp(now);
      Signed(p.sig(secretKey, Message(p, ts, verb, path, params, body)), ts)
    }

    /** `get_headers`: the six headers, SIGN and TIMESTAMP from a single `sign` call. */
    function Headers(p: Primitives, now: Instant, verb: string, path: string,
                     params: Option<Dict>, body: Option<Dict>): (h: Dict)
      requires Valid(now)
      ensures var s := Sign(p, now, verb, path, params, body);
        h == HeaderDict(apiKey, s.signature, s.timestamp, passphrase, projectId)
    {
      var s := Sign(p, now, verb, path, params, body);
      HeaderDict(apiKey, s.signature, s.timestamp, passphrase, projectId)
    }
  }

  /**
   * A verifier that rebuilds okxpy's own canonical message (key-sorted query,
   * `str(body)`) from the timestamp header and its copy of the secret and of
   * the request, and compares the signature header with the result.
   */
  predicate ServerAccepts(p: Primitives, secretKey: string, headers: Dict, verb: string,
                          path: string, params: Option<Dict>, body: Option<Dict>)
  {
    match (Get(headers, "OK-ACCESS-TIMESTAMP"), Get(headers, "OK-ACCESS-SIGN"))
    case (Some(Str(ts)), Some(Str(sig))) =>
      WellFormed(ts) && sig == p.sig(secretKey, Message(p, ts, verb, path, params, body))
    case _ => false
  }

  /** Headers from `get_headers` pass the server's recomputation. */
  lemma HeadersAccepted(a: OKXAuth, p: Primitives, now: Instant, verb: string, path: string,
                        params: Option<Dict>, body: Option<Dict>)
    requires Valid(now)
    ensures ServerAccepts(p, a.secretKey, a.Headers(p, now, verb, path, params, body),
                          verb, path, params, body)
  {
  }

  /**
   * A GET with a non-empty params dict signs the timestamp, `GET`, the path,
   * `?` and the `k=v` pairs joined by `&` in strictly ascending key order.
   */
  lemma GetMessageSorted(p: Primitives, ts: string, path: string, params: Dict, body: Option<Dict>)
    requires params != [] && DistinctKeys(params)
    ensures exists sorted: Dict ::
      && SortedByKey(sorted) && multiset(sorted) == multiset(params)
      && Message(p, ts, "GET", path, Some(params), body) == ts + "GET" + path + "?" + Query(p, sorted)
  {
    SortByKeySorted(params);
    var sorted := SortByKey(params);
    assert Message(p, ts, "GET", path, Some(params), body) == ts + "GET" + path + "?" + Query(p, sorted);
  }

  /**
   * The signature of a GET depends on the params only through their key/value
   * pairs: inserting the same pairs in another order signs the same message.
   */
  lemma GetSignaturePermutationInvariant(a: OKXAuth, p: Primitives, now: Instant, path: string,
                                         params1: Dict, params2: Dict, body: Option<Dict>)
    requires Valid(now)
    requires DistinctKeys(params1) && DistinctKeys(params2)
    requires multiset(params1) == multiset(params2)
    ensures a.Sign(p, now, "GET", path, Some(params1), body) == a.Sign(p, now, "GET", path, Some(params2), body)
  {
    SortByKeyPermutationInvariant(params1, params2);
    assert params1 == [] <==> params2 == [] by {
      assert |params1| == |multiset(params1)| == |multiset(params2)| == |params2|;
    }
  }

  /**
   * The timestamp is part of what is signed: two requests that differ only in
   * their (fixed-width) timestamps sign different messages.
   */
  lemma MessageSeparatesTimestamps(p: Primitives, ts1: string, ts2: string, verb: string, path: string,
                                   params: Option<Dict>, body: Option<Dict>)
    requires WellFormed(ts1) && WellFormed(ts2) && ts1 != ts2
    ensures Message(p, ts1, verb, path, params, body) != Message(p, ts2, verb, path, params, body)
  {
    var m1 := Message(p, ts1, verb, path, params, body);
    var m2 := Message(p, ts2, verb, path, params, body);
    assert m1[..24] == ts1 by { assert (ts1 + verb + path)[..24] == ts1; }
    assert m2[..24] == ts2 by { assert (ts2 + verb + path)[..24] == ts2; }
  }

  /** A POST with a non-empty body signs `str(body)` and ignores whatever params are passed. */
  lemma PostMessageIgnoresParams(p: Primitives, ts: string, path: string,
                                 params1: Option<Dict>, params2: Option<Dict>, body: Dict)
    requires body != []
    ensures Message(p, ts, "POST", path, params1, Some(body)) == ts + "POST" + path + p.pyStr(Obj(body))
    ensures Message(p, ts, "POST", path, params1, Some(body)) == Message(p, ts, "POST", path, params2, Some(body))
  {
  }

  /**
   * An empty or absent params dict, or a GET spelled in lower case, signs no
   * `?`; an empty or absent body makes a POST sign no body.
   */
  lemma NoQueryWithoutParams(p: Primitives, ts: string, path: string, params: Option<Dict>, body: Option<Dict>)
    ensures !GivenDict(params) ==> Message(p, ts, "GET", path, params, body) == ts + "GET" + path
    ensures Message(p, ts, "get", path, params, body) == ts + "get" + path
    ensures !GivenDict(body) ==> Message(p, ts, "POST", path, params, body) == ts + "POST" + path
  {
  }
}
