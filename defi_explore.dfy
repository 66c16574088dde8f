/**
 * The DeFi explore endpoints of okxpy/defi/explore.py: the params or body
 * each operation assembles and the `_request` call it makes.
 */
module DefiExplore {
  import opened Wrappers
  import opened Py
  import opened Dispatch
  import Auth

  /**
   * `DefiExploreClient(auth)`: the shared `_request` over the explore service,
   * whose URL is the host and exactly the path it signs.
   */
  function ExploreClient(auth: Auth.OKXAuth): (c: DomainClient)
    ensures c.auth == auth
    ensures forall e :: c.SignedPath(e) == "/api/v5/defi/explore/" + e
    ensures forall e :: c.Url(e) == Host + "/api/v5/defi/explore/" + e
  {
    var c := DomainClient(auth, ExploreService);
    assert forall e :: c.SignedPath(e) == "/api/v5/defi/explore/" + e by {
      forall e ensures c.SignedPath(e) == "/api/v5/defi/explore/" + e {
        assert c.SignedPath(e) == ExploreService.path + "/" + e;
        assert ExploreService.path + "/" == "/api/v5/defi/explore/";
      }
    }
    c
  }

  /** The declared default of the product page size. */
  const DefaultProductLimit := "20"

  /** The params of the three endpoints that take two optional filters, `a` then `b`. */
  method TwoFilters(a: string, x: Option<string>, b: string, y: Option<string>) returns (params: Dict)
    requires a != b
    ensures DistinctKeys(params)
    ensures forall k :: k in Keys(params) ==> k == a || k == b
    ensures Get(params, a) == Sent(x) && Get(params, b) == Sent(y)
    ensures InKeyOrder(params, [a, b])
  {
    var keys, values := [a, b], [Sent(x), Sent(y)];
    params := Build(keys, values);
    assert Get(params, keys[0]) == values[0] && Get(params, keys[1]) == values[1];
  }

  /** `get_protocol_list`. */
  method ProtocolList(platformId: Option<string>, platformName: Option<string>) returns (call: ApiCall)
    ensures call.verb == "GET" && call.endpoint == "protocol/list" && call.body == None
    ensures call.params.Some? && DistinctKeys(call.params.value)
    ensures forall k :: k in Keys(call.params.value) ==> k in {"platformId", "platformName"}
    ensures Get(call.params.value, "platformId") == Sent(platformId)
    ensures InKeyOrder(call.params.value, ["platformId", "platformName"])
    ensures Get(call.params.value, "platformName") == Sent(platformName)
  {
    var params := TwoFilters("platformId", platformId, "platformName", platformName);
    call := ApiCall("GET", "protocol/list", Some(params), None);
  }

  /** `get_token_list`. */
  method TokenList(tokenAddress: Option<string>, chainId: Option<string>) returns (call: ApiCall)
    ensures call.verb == "GET" && call.endpoint == "token/list" && call.body == None
    ensures call.params.Some? && DistinctKeys(call.params.value)
    ensures forall k :: k in Keys(call.params.value) ==> k in {"tokenAddress", "chainId"}
    ensures Get(call.params.value, "tokenAddress") == Sent(tokenAddress)
    ensures InKeyOrder(call.params.value, ["tokenAddress", "chainId"])
    ensures Get(call.params.value, "chainId") == Sent(chainId)
  {
    var params := TwoFilters("tokenAddress", tokenAddress, "chainId", chainId);
    call := ApiCall("GET", "token/list", Some(params), None);
  }

  /** `get_network_list`. */
  method NetworkList(network: Option<string>, chainId: Option<string>) returns (call: ApiCall)
    ensures call.verb == "GET" && call.endpoint == "network-list" && call.body == None
    ensures call.params.Some? && DistinctKeys(call.params.value)
    ensures forall k :: k in Keys(call.params.value) ==> k in {"network", "chainId"}
    ensures Get(call.params.value, "network") == Sent(network)
    ensures InKeyOrder(call.params.value, ["network", "chainId"])
    ensures Get(call.params.value, "chainId") == Sent(chainId)
  {
    var params := TwoFilters("network", network, "chainId", chainId);
    call := ApiCall("GET", "network-list", Some(params), None);
  }

  const ProductKeys: seq<string> :=
    ["network", "simplifyInvestType", "limit", "poolVersion", "platformIds", "tokenIds", "sort", "offset"]

  /**
   * `get_product_list`: three keys always, each option only when given,
   * stored in that order; the id lists go out as JSON lists and the sort spec
   * as a JSON object.
   */
  method ProductList(network: string, simplifyInvestType: string, poolVersion: Option<string>,
                     platformIds: Option<seq<string>>, tokenIds: Option<seq<string>>,
                     sort: Option<Dict>, offset: Option<string>, limit: StrArg) returns (call: ApiCall)
    ensures call.verb == "POST" && call.endpoint == "product/list" && call.params == None
    ensures call.body.Some? && DistinctKeys(call.body.value)
    ensures forall k :: k in Keys(call.body.value) ==> k in ProductKeys
    ensures Get(call.body.value, "network") == Some(Str(network))
    ensures Get(call.body.value, "simplifyInvestType") == Some(Str(simplifyInvestType))
    ensures Get(call.body.value, "limit") == Some(Str(Resolve(limit, DefaultProductLimit)))
    ensures limit.Omitted? ==> Get(call.body.value, "limit") == Some(Str("20"))
    ensures Get(call.body.value, "poolVersion") == Sent(poolVersion)
    ensures Get(call.body.value, "platformIds") == SentList(platformIds)
    ensures Get(call.body.value, "tokenIds") == SentList(tokenIds)
    ensures Get(call.body.value, "sort") == SentDict(sort)
    ensures Get(call.body.value, "offset") == Sent(offset)
    ensures InKeyOrder(call.body.value, ProductKeys)
  {
    var values := [Some(Str(network)), Some(Str(simplifyInvestType)), Some(Str(Resolve(limit, DefaultProductLimit))),
                   Sent(poolVersion),
                   SentList(platformIds), SentList(tokenIds), SentDict(sort), Sent(offset)];
    var body := Build(ProductKeys, values);
    assert Get(body, ProductKeys[0]) == values[0] && Get(body, ProductKeys[1]) == values[1];
    assert Get(body, ProductKeys[2]) == values[2] && Get(body, ProductKeys[3]) == values[3];
    assert Get(body, ProductKeys[4]) == values[4] && Get(body, ProductKeys[5]) == values[5];
    assert Get(body, ProductKeys[6]) == values[6] && Get(body, ProductKeys[7]) == values[7];
    call := ApiCall("POST", "product/list", None, Some(body));
  }

  /** `get_product_detail`: `investmentId` always, `investmentCategory` only when given. */
  method ProductDetail(investmentId: string, investmentCategory: Option<string>) returns (call: ApiCall)
    ensures call.verb == "GET" && call.endpoint == "product/detail" && call.body == None
    ensures call.params.Some? && DistinctKeys(call.params.value)
    ensures Keys(call.params.value) == {"investmentId"} + KeyIf(Given(investmentCategory), "investmentCategory")
    ensures Get(call.params.value, "investmentId") == Some(Str(investmentId))
    ensures Get(call.params.value, "investmentCategory") == Sent(investmentCategory)
    ensures InKeyOrder(call.params.value, ["investmentId", "investmentCategory"])
  {
    var params := Set([], "investmentId", Str(investmentId));
    if Given(investmentCategory) {
      params := Set(params, "investmentCategory", Str(investmentCategory.value));
    }
    var keys := ["investmentId", "investmentCategory"];
    forall i, j | 0 <= i < j < |params| ensures Before(keys, params[i].key, params[j].key) {
      assert keys[i] == params[i].key && keys[j] == params[j].key;
    }
    call := ApiCall("GET", "product/detail", Some(params), None);
  }
}
