/**
 * `_request` of the okxpy domain clients (wallet, DEX aggregator, DeFi
 * explore): sign the prefixed path, send GET params or a POST body, and
 * normalise whatever comes back into the payload or a `{code, msg}` record.
 * The three clients run the same code and differ only in their service
 * prefix, so one `DomainClient` stands for all three.
 */
module Dispatch {
  import opened Wrappers
  import opened Py
  import opened Text
  import opened Timestamp
  import opened Canonical
  import opened Auth

  /** The arguments of one `_request(method, endpoint, params, body)` call. */
  datatype ApiCall = ApiCall(verb: string, endpoint: string, params: Option<Dict>, body: Option<Dict>)

  /** The request handed to the HTTP library. */
  datatype HttpRequest =
    | HttpGet(url: string, headers: Dict, query: Option<Dict>)
    | HttpPost(url: string, headers: Dict, json: Option<Dict>)

  /**
   * What the HTTP library gives back: a response (with `response.json()`
   * already parsed), or a `RequestException`, which may carry the response
   * it was raised for.
   */
  datatype Response =
    | Received(status: nat, payload: Value, text: string)
    | TransportError(responseStatus: Option<nat>, description: string)

  /** What a call returns to its caller, or the exception that escapes it. */
  datatype Outcome = Returned(value: Value) | Raised(error: PyError)

  const Host := "https://www.okx.com"

  /**
   * A domain client's service path: its `BASE_URL` is the host followed by
   * this path, and the path it signs is this path, `/` and the endpoint.
   */
  datatype Service = Service(path: string)

  const WalletService := Service("/api/v5/wallet")
  const DexService := Service("/api/v5/dex/aggregator")
  const ExploreService := Service("/api/v5/defi/explore")

  /** `{"code": code, "msg": msg}`. */
  function ErrorRecord(code: string, msg: string): (r: Value)
    ensures r.Obj? && DistinctKeys(r.fields) && Keys(r.fields) == {"code", "msg"}
    ensures Get(r.fields, "code") == Some(Str(code)) && Get(r.fields, "msg") == Some(Str(msg))
  {
    Obj(Set(Set([], "code", Str(code)), "msg", Str(msg)))
  }

  /**
   * The result mapping of `_request`: status 200 passes the payload through
   * unchanged; any other status becomes `{"code": str(status), "msg": text}`,
   * from whose code the status can be read back; a transport exception
   * becomes code `"500"` with the exception's text.
   */
  function Normalise(resp: Response): (r: Value)
    ensures resp.Received? && resp.status == 200 ==> r == resp.payload
    ensures resp.Received? && resp.status != 200 ==>
      r == ErrorRecord(Show(resp.status), resp.text) && DigitsValue(Show(resp.status)) == resp.status
    ensures resp.TransportError? ==> r == ErrorRecord("500", resp.description)
  {
    match resp
    case Received(status, payload, text) =>
      if status == 200 then payload
      else
        ShowRoundTrip(status);
        ErrorRecord(Show(status), text)
    case TransportError(_, description) => ErrorRecord("500", description)
  }

  /** One of WalletClient, DexClient, DefiExploreClient: the shared auth object and a service. */
  datatype DomainClient = DomainClient(auth: OKXAuth, service: Service)
  {
    /** The path given to `get_headers`: the service prefix and the endpoint, with no query string. */
    function SignedPath(endpoint: string): string {
      service.path + "/" + endpoint
    }

    /** `f"{self.BASE_URL}/{endpoint}"`. */
    function Url(endpoint: string): (u: string)
      ensures u == Host + SignedPath(endpoint)
    {
      Host + service.path + "/" + endpoint
    }

    /**
     * The request `_request` sends. A method other than exactly `"GET"` or
     * `"POST"` sends nothing and leaves `response` unbound, so reading its
     * status raises `UnboundLocalError` (not a `RequestException`, so it escapes).
     */
    function Outgoing(p: Primitives, now: Instant, call: ApiCall): (r: Result<HttpRequest, PyError>)
      requires Valid(now)
      ensures r.Success? <==> call.verb == "GET" || call.verb == "POST"
      ensures r.Failure? ==> r.error == UnboundLocalError("response")
      ensures r.Success? ==>
        && r.value.url == Url(call.endpoint)
        && r.value.headers == auth.Headers(p, now, call.verb, SignedPath(call.endpoint), call.params, call.body)
      ensures call.verb == "GET" ==> r == Success(HttpGet(r.value.url, r.value.headers, call.params))
      ensures call.verb == "POST" ==> r == Success(HttpPost(r.value.url, r.value.headers, call.body))
    {
      var url := Url(call.endpoint);
      var headers := auth.Headers(p, now, call.verb, SignedPath(call.endpoint), call.params, call.body);
      if call.verb == "GET" then Success(HttpGet(url, headers, call.params))
      else if call.verb == "POST" then Success(HttpPost(url, headers, call.body))
      else Failure(UnboundLocalError("response"))
    }

    /** `_request`: the normalised result of the response the transport gave to `Outgoing`. */
    function Request(p: Primitives, now: Instant, call: ApiCall, resp: Response): (r: Outcome)
      requires Valid(now)
      ensures call.verb == "GET" || call.verb == "POST" ==> r == Returned(Normalise(resp))
      ensures call.verb != "GET" && call.verb != "POST" ==> r == Raised(UnboundLocalError("response"))
    {
      match Outgoing(p, now, call)
      case Success(_) => Returned(Normalise(resp))
      case Failure(e) => Raised(e)
    }
  }

  /**
   * For a GET or a POST, a verifier that rebuilds okxpy's canonical message
   * over the path of the URL and the params or body of the call accepts the
   * headers. This is a round trip of the headers, not a statement about the
   * bytes on the wire, which carry the params in insertion order and the body
   * as JSON.
   */
  lemma OutgoingAccepted(c: DomainClient, p: Primitives, now: Instant, call: ApiCall)
    requires Valid(now)
    requires call.verb == "GET" || call.verb == "POST"
    ensures var r := c.Outgoing(p, now, call);
      && r.Success?
      && r.value.url == Host + c.SignedPath(call.endpoint)
      && ServerAccepts(p, c.auth.secretKey, r.value.headers, call.verb, c.SignedPath(call.endpoint),
                       call.params, call.body)
  {
    HeadersAccepted(c.auth, p, now, call.verb, c.SignedPath(call.endpoint), call.params, call.body);
  }

  /** No network outcome escapes as an exception: every response yields one of the two shapes. */
  lemma NetworkFailuresAreReturned(c: DomainClient, p: Primitives, now: Instant, call: ApiCall, resp: Response)
    requires Valid(now)
    requires call.verb == "GET" || call.verb == "POST"
    ensures var r := c.Request(p, now, call, resp);
      && r.Returned?
      && (if resp.Received? && resp.status == 200 then r.value == resp.payload
          else r.value.Obj? && Keys(r.value.fields) == {"code", "msg"})
  {
  }
}
