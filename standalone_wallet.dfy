/**
 * `OkxWallet` of okx_wallet.py, the standalone wallet wrapper. It signs
 * differently from okxpy: the method is upper-cased before use, a POST body
 * is rendered by `json.dumps`, and the signed path is always the wallet
 * prefix. A transport failure reports the status the exception carries.
 * Its builders are the shared ones of `WalletCalls`.
 */
module StandaloneWallet {
  import opened Wrappers
  import opened Py
  import opened Text
  import opened Timestamp
  import opened Canonical
  import Auth
  import opened Dispatch

  /** The fixed start of every signed path. */
  const PathPrefix := "/api/v5/wallet/"

  /**
   * The message `_sign` hands to HMAC: upper-cased method, the wallet path,
   * then the key-sorted query for a GET with params or the JSON body for a
   * POST with a body.
   */
  function Message(p: Primitives, ts: string, verb: string, endpoint: string,
                   params: Option<Dict>, body: Option<Dict>): (r: string)
    ensures var head := ts + Upper(verb) + PathPrefix + endpoint;
      |r| >= |head| && r[..|head|] == head
    ensures Upper(verb) != "GET" && Upper(verb) != "POST" ==> r == ts + Upper(verb) + PathPrefix + endpoint
    ensures Upper(verb) == "GET" && !GivenDict(params) ==> r == ts + "GET" + PathPrefix + endpoint
    ensures Upper(verb) == "POST" && !GivenDict(body) ==> r == ts + "POST" + PathPrefix + endpoint
  {
    var m := Upper(verb);
    var path := PathPrefix + endpoint;
    if m == "GET" && GivenDict(params) then ts + m + (path + "?" + Query(p, SortByKey(params.value)))
    else if m == "POST" && GivenDict(body) then ts + m + path + p.jsonDumps(Obj(body.value))
    else ts + m + path
  }

  /** The case of the method does not matter: `"get"` signs exactly like `"GET"`. */
  lemma MethodCaseIgnored(p: Primitives, ts: string, verb: string, endpoint: string,
                          params: Option<Dict>, body: Option<Dict>)
    ensures Message(p, ts, verb, endpoint, params, body) == Message(p, ts, Upper(verb), endpoint, params, body)
  {
    UpperIdempotent(verb);
  }

  /**
   * For a GET (in any case) the wallet signs exactly what okxpy's signer
   * signs for `"GET"` and the same path: both sort the params by key.
   */
  lemma GetAgreesWithAuth(p: Primitives, ts: string, verb: string, endpoint: string,
                          params: Option<Dict>, body: Option<Dict>)
    requires Upper(verb) == "GET"
    ensures Message(p, ts, verb, endpoint, params, body) ==
            Auth.Message(p, ts, "GET", PathPrefix + endpoint, params, body)
  {
    assert ts + "GET" + (PathPrefix + endpoint) == ts + "GET" + PathPrefix + endpoint;
    if GivenDict(params) {
      var q := "?" + Query(p, SortByKey(params.value));
      assert ts + "GET" + (PathPrefix + endpoint + q) == ts + "GET" + (PathPrefix + endpoint) + q;
    }
  }

  /** A POST with a body signs its JSON rendering, whatever the params. */
  lemma PostSignsJsonBody(p: Primitives, ts: string, verb: string, endpoint: string,
                          params: Option<Dict>, body: Dict)
    requires Upper(verb) == "POST" && body != []
    ensures Message(p, ts, verb, endpoint, params, Some(body)) ==
            ts + "POST" + PathPrefix + endpoint + p.jsonDumps(Obj(body))
  {
  }

  /**
   * The result mapping of `_request`: 200 passes the payload through, any other
   * status becomes `{"code": str(status), "msg": text}`, and a transport
   * exception reports the status of the response it carries, or `"500"`.
   */
  function Report(resp: Response): (r: Value)
    ensures resp.Received? && resp.status == 200 ==> r == resp.payload
    ensures resp.Received? && resp.status != 200 ==> r == ErrorRecord(Show(resp.status), resp.text)
    ensures resp.TransportError? && resp.responseStatus.Some? ==>
      r == ErrorRecord(Show(resp.responseStatus.value), resp.description)
    ensures resp.TransportError? && resp.responseStatus.None? ==> r == ErrorRecord("500", resp.description)
  {
    match resp
    case Received(status, payload, text) =>
      if status == 200 then payload else ErrorRecord(Show(status), text)
    case TransportError(Some(status), description) => ErrorRecord(Show(status), description)
    case TransportError(None, description) => ErrorRecord("500", description)
  }

  /** Where the two normalisations differ: only on a transport exception that carries a response. */
  lemma ReportDiffersOnlyOnAttachedStatus(resp: Response)
    ensures Report(resp) != Dispatch.Normalise(resp) <==>
      resp.TransportError? && resp.responseStatus.Some? && Show(resp.responseStatus.value) != "500"
  {
    if resp.TransportError? && resp.responseStatus.Some? {
      var a := Report(resp);
      var b := Dispatch.Normalise(resp);
      assert Get(a.fields, "code") == Some(Str(Show(resp.responseStatus.value)));
      assert Get(b.fields, "code") == Some(Str("500"));
    }
  }

  /** The wrapper's state: the credentials file's values, read once. */
  datatype OkxWallet = OkxWallet(apiKey: string, passphrase: string, projectId: string, secret: string,
                                 solanaWalletAddr: string, accountId: Option<string>)
  {
    /**
     * `_sign`: the timestamp is the one passed in, verbatim, or else the
     * formatted clock reading; the signature is HMAC of the secret over the
     * message with that timestamp.
     */
    function Sign(p: Primitives, now: Instant, verb: string, endpoint: string,
                  params: Option<Dict>, body: Option<Dict>, ts: Option<string>): (r: Auth.Signed)
      requires Valid(now)
      ensures ts.Some? ==> r.timestamp == ts.value
      ensures ts.None? ==> WellFormed(r.timestamp) && Parse(r.timestamp) == Some(Truncated(now))
      ensures r.signature == p.sig(secret, Message(p, r.timestamp, verb, endpoint, params, body))
    {
      ParseRoundTrip(now);
      var stamp := if ts.Some? then ts.value else UtcTimestamp(now);
      Auth.Signed(p.sig(secret, Message(p, stamp, verb, endpoint, params, body)), stamp)
    }

    /**
     * The request `_request` sends: the headers carry a fresh timestamp and
     * the signature over it; a method other than exactly `"GET"` or `"POST"`
     * leaves `response` unbound, which escapes as `UnboundLocalError`.
     */
    function Outgoing(p: Primitives, now: Instant, call: ApiCall): (r: Result<HttpRequest, PyError>)
      requires Valid(now)
      ensures r.Success? <==> call.verb == "GET" || call.verb == "POST"
      ensures r.Failure? ==> r.error == UnboundLocalError("response")
      ensures r.Success? ==>
        && r.value.url == Host + PathPrefix + call.endpoint
        && Get(r.value.headers, "OK-ACCESS-TIMESTAMP") == Some(Str(UtcTimestamp(now)))
        && Get(r.value.headers, "OK-ACCESS-SIGN") ==
             Some(Str(p.sig(secret, Message(p, UtcTimestamp(now), call.verb, call.endpoint, call.params, call.body))))
        && Get(r.value.headers, "OK-ACCESS-KEY") == Some(Str(apiKey))
        && Get(r.value.headers, "OK-ACCESS-PASSPHRASE") == Some(Str(passphrase))
        && Get(r.value.headers, "OK-ACCESS-PROJECT") == Some(Str(projectId))
      ensures call.verb == "GET" ==> r.Success? && r.value.HttpGet? && r.value.query == call.params
      ensures call.verb == "POST" ==> r.Success? && r.value.HttpPost? && r.value.json == call.body
    {
      var ts := UtcTimestamp(now);
      var s := Sign(p, now, call.verb, call.endpoint, call.params, call.body, Some(ts));
      var headers := Auth.HeaderDict(apiKey, s.signature, s.timestamp, passphrase, projectId);
      var url := Host + PathPrefix + call.endpoint;
      if call.verb == "GET" then Success(HttpGet(url, headers, call.params))
      else if call.verb == "POST" then Success(HttpPost(url, headers, call.body))
      else Failure(UnboundLocalError("response"))
    }

    /** `_request`: the normalised response, or the exception that escapes. */
    function Request(p: Primitives, now: Instant, call: ApiCall, resp: Response): (r: Outcome)
      requires Valid(now)
      ensures call.verb == "GET" || call.verb == "POST" ==> r == Returned(Report(resp))
      ensures call.verb != "GET" && call.verb != "POST" ==> r == Raised(UnboundLocalError("response"))
    {
      match Outgoing(p, now, call)
      case Success(_) => Returned(Report(resp))
      case Failure(e) => Raised(e)
    }
  }

  /** Lower-case `"get"` is signed as a GET but never sent: `_request` compares case-sensitively. */
  lemma LowercaseGetSignedButNotSent(w: OkxWallet, p: Primitives, now: Instant, endpoint: string,
                                     params: Option<Dict>, resp: Response)
    requires Valid(now)
    ensures Message(p, UtcTimestamp(now), "get", endpoint, params, None) ==
            Message(p, UtcTimestamp(now), "GET", endpoint, params, None)
    ensures w.Request(p, now, ApiCall("get", endpoint, params, None), resp) == Raised(UnboundLocalError("response"))
  {
    MethodCaseIgnored(p, UtcTimestamp(now), "get", endpoint, params, None);
    UpperIsGet("get");
    UpperIsGet("GET");
    UpperIdempotent("GET");
  }

  /**
   * `__init__`: the file's `access_key`, `passphrase`, `access_project`,
   * `secret_key` and `solana_wallet_addr` are read in that order (the first
   * missing raises `KeyError`), `account_id` is optional, and the four
   * credentials must be non-empty.
   */
  function Open(file: map<string, string>): (r: Result<OkxWallet, PyError>)
    ensures r.Success? <==>
      && "access_key" in file && "passphrase" in file && "access_project" in file
      && "secret_key" in file && "solana_wallet_addr" in file
      && file["access_key"] != "" && file["passphrase"] != "" && file["access_project"] != ""
      && file["secret_key"] != ""
    ensures r.Success? ==>
      r.value == OkxWallet(file["access_key"], file["passphrase"], file["access_project"], file["secret_key"],
                           file["solana_wallet_addr"],
                           if "account_id" in file then Some(file["account_id"]) else None)
    ensures r.Failure? ==>
      r.error == (if "access_key" !in file then KeyError("access_key")
                  else if "passphrase" !in file then KeyError("passphrase")
                  else if "access_project" !in file then KeyError("access_project")
                  else if "secret_key" !in file then KeyError("secret_key")
                  else if "solana_wallet_addr" !in file then KeyError("solana_wallet_addr")
                  else ValueError("Missing required credentials"))
  {
    if "access_key" !in file then Failure(KeyError("access_key"))
    else if "passphrase" !in file then Failure(KeyError("passphrase"))
    else if "access_project" !in file then Failure(KeyError("access_project"))
    else if "secret_key" !in file then Failure(KeyError("secret_key"))
    else if "solana_wallet_addr" !in file then Failure(KeyError("solana_wallet_addr"))
    else
      var w := OkxWallet(file["access_key"], file["passphrase"], file["access_project"], file["secret_key"],
                         file["solana_wallet_addr"],
                         if "account_id" in file then Some(file["account_id"]) else None);
      if w.apiKey != "" && w.passphrase != "" && w.projectId != "" && w.secret != "" then Success(w)
      else Failure(ValueError("Missing required credentials"))
  }
}
