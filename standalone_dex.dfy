/**
 * `OkxDEX` of okx_dex.py, the standalone DEX aggregator wrapper. Every call
 * is a GET; it signs the params in insertion order and always writes the
 * `?`, looks chains up by name in a fixed table, reports a non-200 status
 * as a number, and lets transport exceptions escape.
 */
module StandaloneDex {
  import opened Wrappers
  import opened Py
  import opened Text
  import opened Timestamp
  import opened Canonical
  import Auth
  import opened Dispatch
  import opened DexCalls
  import StandaloneWallet

  /** The fixed start of every signed path. */
  const PathPrefix := "/api/v5/dex/aggregator/"

  /** The declared default of `get_supported_chains`' chain name. */
  const DefaultChainName := ""

  /** One entry of `CHAINS`: the chain's id and its named token addresses. */
  datatype Chain = Chain(chainId: string, addr: map<string, string>)

  const UsdtKey := "USDT_MINT_ADDR"

  /** `CHAINS`. */
  const Chains: map<string, Chain> := map[
    "Solana" := Chain("501", map[
      "USDT_MINT_ADDR" := "Es9vMFrzaCERmJfrF4H2FYD4KCoNkY11McCe8BenwNYB",
      "USDC_MINT_ADDR" := "EPjFWdd5AufqSSqeM2qN1xzybapC8G4wEGGkZwyTDt1v",
      "BTC_MINT_ADDR" := "9n4nbM75f5Ui33ZbPYXn59EwSgE8CGsHtAeTH5YFeJ9E",
      "ETH_MINT_ADDR" := "7vfCXTUXx5WJV5JADk17DUJ4ksgau7utNKj4b963voxs",
      "SOL_MINT_ADDR" := "So11111111111111111111111111111111111111112",
      "BONK_MINT_ADDR" := "DezXAZ8z7PnrnRJjz3wXBoRgixCa6xjnB7YaB1pPB263",
      "RAY_MINT_ADDR" := "4k3Dyjzvzp8eMZWUXbBCjEvwSkkk59S5iCNLY3QrkX6R",
      "MATIC_MINT_ADDR" := "Gz7VkD4MacbEB6yC5XD3HcumEiYx2EtDYYrfikGsvopG",
      "AVAX_MINT_ADDR" := "KgV1GvrHQmRBY8sHQQeUKwTm2r2h8t4C8qt12CHGwXB"]),
    "Ethereum" := Chain("1", map[
      "ETH_ADDR" := "0xEeeeeEeeeEeEeeEeEeEeeEEEeeeeEeeeeeeeEEeE",
      "WETH_ADDR" := "0xC02aaA39b223FE8D0A0e5C4F27eAD9083C756Cc2",
      "USDT_ADDR" := "0xdAC17F958D2ee523a2206206994597C13D831ec7",
      "USDC_ADDR" := "0xA0b86991c6218b36c1d19D4a2e9Eb0cE3606eB48",
      "WBTC_ADDR" := "0x2260FAC5E5542a773Aa44fBCfeDf7C193bc2C599",
      "DAI_ADDR" := "0x6B175474E89094C44Da98b954EedeAC495271d0F",
      "UNI_ADDR" := "0x1f9840a85d5aF5bf1D1762F925BDADdC4201F984",
      "LINK_ADDR" := "0x514910771AF9Ca656af840dff83E8264EcF986CA",
      "AAVE_ADDR" := "0x7Fc66500c84A76Ad7e9c93437bFc5Ac33E2DDaE9",
      "MATIC_ADDR" := "0x7D1AfA7B718fb893dB30A3aBc0Cfc608AaCfeBB0"])]

  /** `CHAINS[chain_name]["chain_id"]`. */
  function ChainId(name: string): (r: Result<string, PyError>)
    ensures r.Success? <==> name in Chains
    ensures r.Failure? ==> r.error == KeyError(name)
  {
    if name in Chains then Success(Chains[name].chainId) else Failure(KeyError(name))
  }

  /** `CHAINS[chain_name]['Addr']['USDT_MINT_ADDR']`: the chain is looked up first. */
  function UsdtAddress(name: string): (r: Result<string, PyError>)
    ensures r.Success? <==> name in Chains && UsdtKey in Chains[name].addr
    ensures name !in Chains ==> r == Failure(KeyError(name))
  {
    if name !in Chains then Failure(KeyError(name))
    else if UsdtKey !in Chains[name].addr then Failure(KeyError(UsdtKey))
    else Success(Chains[name].addr[UsdtKey])
  }

  /**
   * The table as the lookups see it: exactly two chain names, Solana with id
   * `501` and a USDT mint, Ethereum with id `1` and no `USDT_MINT_ADDR`.
   */
  lemma ChainTable(name: string)
    ensures ChainId(name).Success? <==> name == "Solana" || name == "Ethereum"
    ensures ChainId("Solana") == Success("501") && ChainId("Ethereum") == Success("1")
    ensures UsdtAddress("Solana") == Success("Es9vMFrzaCERmJfrF4H2FYD4KCoNkY11McCe8BenwNYB")
    ensures UsdtAddress("Ethereum") == Failure(KeyError("USDT_MINT_ADDR"))
  {
    assert Chains.Keys == {"Solana", "Ethereum"};
  }

  /**
   * The message `_sign` hands to HMAC: always a GET, the params joined in
   * the order they were inserted, and a `?` whether or not there are any.
   */
  function Message(p: Primitives, ts: string, endpoint: string, params: Dict): (r: string)
    ensures var head := ts + "GET" + PathPrefix + endpoint + "?";
      |r| >= |head| && r[..|head|] == head
  {
    ts + "GET" + PathPrefix + endpoint + "?" + Query(p, params)
  }

  /**
   * With a non-empty params dict already in ascending key order, the message
   * is the one okxpy's signer produces for the same GET.
   */
  lemma SortedMessageAgreesWithAuth(p: Primitives, ts: string, endpoint: string, params: Dict, body: Option<Dict>)
    requires DistinctKeys(params) && SortedByKey(params) && params != []
    ensures Message(p, ts, endpoint, params) == Auth.Message(p, ts, "GET", PathPrefix + endpoint, Some(params), body)
  {
    SortByKeySorted(params);
    SortedUnique(SortByKey(params), params);
    assert ts + "GET" + PathPrefix + endpoint + "?" == ts + "GET" + (PathPrefix + endpoint) + "?";
  }

  /** With no params the message still ends in `?`, which okxpy's signer never writes. */
  lemma EmptyMessageEndsInQuery(p: Primitives, ts: string, endpoint: string, body: Option<Dict>)
    ensures Message(p, ts, endpoint, []) == Auth.Message(p, ts, "GET", PathPrefix + endpoint, Some([]), body) + "?"
  {
    assert ts + "GET" + PathPrefix + endpoint == ts + "GET" + (PathPrefix + endpoint);
  }

  /**
   * Unlike okxpy's signer, the order of insertion matters: the same two
   * pairs inserted in the two orders give different messages.
   */
  lemma MessageDependsOnOrder(p: Primitives, ts: string, endpoint: string)
    ensures var ab := [Entry("a", Str("1")), Entry("b", Str("2"))];
            var ba := [Entry("b", Str("2")), Entry("a", Str("1"))];
            multiset(ab) == multiset(ba) && Message(p, ts, endpoint, ab) != Message(p, ts, endpoint, ba)
  {
    var ab := [Entry("a", Str("1")), Entry("b", Str("2"))];
    var ba := [Entry("b", Str("2")), Entry("a", Str("1"))];
    assert Query(p, ab) == "a=1&b=2";
    assert Query(p, ba) == "b=2&a=1";
    var n := |ts + "GET" + PathPrefix + endpoint + "?"|;
    assert Message(p, ts, endpoint, ab)[n] == 'a';
    assert Message(p, ts, endpoint, ba)[n] == 'b';
  }

  const HeaderKeys: seq<string> :=
    ["Content-Type", "OK-ACCESS-PROJECT", "OK-ACCESS-KEY", "OK-ACCESS-SIGN", "OK-ACCESS-PASSPHRASE",
     "OK-ACCESS-TIMESTAMP"]

  /**
   * The six headers of `_request`: the keys and values of okxpy's headers,
   * written in another order (PROJECT second).
   */
  function HeaderDict(apiKey: string, signature: string, ts: string,
                      passphrase: string, projectId: string): (h: Dict)
    ensures DistinctKeys(h) && forall k :: k in Keys(h) ==> k in HeaderKeys
    ensures Get(h, "Content-Type") == Some(Str("application/json"))
    ensures Get(h, "OK-ACCESS-PROJECT") == Some(Str(projectId))
    ensures Get(h, "OK-ACCESS-KEY") == Some(Str(apiKey))
    ensures Get(h, "OK-ACCESS-SIGN") == Some(Str(signature))
    ensures Get(h, "OK-ACCESS-PASSPHRASE") == Some(Str(passphrase))
    ensures Get(h, "OK-ACCESS-TIMESTAMP") == Some(Str(ts))
  {
    var vs := [Str("application/json"), Str(projectId), Str(apiKey), Str(signature), Str(passphrase), Str(ts)];
    var h := Literal(HeaderKeys, vs);
    assert Get(h, HeaderKeys[0]) == Some(vs[0]) && Get(h, HeaderKeys[1]) == Some(vs[1]);
    assert Get(h, HeaderKeys[2]) == Some(vs[2]) && Get(h, HeaderKeys[3]) == Some(vs[3]);
    assert Get(h, HeaderKeys[4]) == Some(vs[4]) && Get(h, HeaderKeys[5]) == Some(vs[5]);
    h
  }

  /** The result mapping of `_request`: the error record holds the status as a number. */
  function Report(status: nat, payload: Value, text: string): (r: Value)
    ensures status == 200 ==> r == payload
    ensures status != 200 ==> r.Obj? && DistinctKeys(r.fields) && Keys(r.fields) == {"ErrorCode", "ErrorMsg"}
    ensures status != 200 ==>
      Get(r.fields, "ErrorCode") == Some(Num(status)) && Get(r.fields, "ErrorMsg") == Some(Str(text))
  {
    if status == 200 then payload
    else Obj(Set(Set([], "ErrorCode", Num(status)), "ErrorMsg", Str(text)))
  }

  /**
   * The two ways of reporting a non-200 status carry the same number: okxpy
   * writes its decimal digits under `code`, okx_dex.py the number itself
   * under `ErrorCode`; both keep the text.
   */
  lemma ReportAgreesWithOkxpy(status: nat, payload: Value, text: string)
    requires status != 200
    ensures var mine := Report(status, payload, text);
            var theirs := Dispatch.Normalise(Received(status, payload, text));
            && Get(mine.fields, "ErrorCode") == Some(Num(status))
            && Get(theirs.fields, "code") == Some(Str(Show(status)))
            && DigitsValue(Show(status)) == status
            && Get(mine.fields, "ErrorMsg") == Get(theirs.fields, "msg")
  {
    ShowRoundTrip(status);
  }

  /** A call as the builders hand it to `_request(endpoint, params)`. */
  datatype DexCall = DexCall(endpoint: string, params: Dict)

  /** The wrapper's state: the credentials file's values, read once. */
  datatype OkxDEX = OkxDEX(apiKey: string, passphrase: string, projectId: string, secret: string,
                           solanaWalletAddr: string)
  {
    /** `_sign`: HMAC of the secret over the message. */
    function Sign(p: Primitives, endpoint: string, params: Dict, ts: string): (r: string)
      ensures r == p.sig(secret, ts + "GET" + PathPrefix + endpoint + "?" + Query(p, params))
    {
      p.sig(secret, Message(p, ts, endpoint, params))
    }

    /**
     * The GET `_request` sends: absent params become `{}`, the same dict is
     * signed and sent, and one timestamp goes into the message and the
     * headers.
     */
    function Outgoing(p: Primitives, now: Instant, endpoint: string, params: Option<Dict>): (r: HttpRequest)
      requires Valid(now)
      ensures var sent := if params.Some? then params.value else [];
        && r == HttpGet(Host + PathPrefix + endpoint, r.headers, Some(sent))
        && r.headers == HeaderDict(apiKey, Sign(p, endpoint, sent, UtcTimestamp(now)), UtcTimestamp(now),
                                   passphrase, projectId)
    {
      var sent := if params.Some? then params.value else [];
      var ts := UtcTimestamp(now);
      HttpGet(Host + PathPrefix + endpoint, HeaderDict(apiKey, Sign(p, endpoint, sent, ts), ts, passphrase, projectId),
              Some(sent))
    }

    /** `_request`: a response is reported, a transport exception escapes. */
    function Request(p: Primitives, now: Instant, endpoint: string, params: Option<Dict>, resp: Response): (r: Outcome)
      requires Valid(now)
      ensures resp.Received? ==> r == Returned(Report(resp.status, resp.payload, resp.text))
      ensures resp.TransportError? ==> r == Raised(RequestException(resp.description))
    {
      var _ := Outgoing(p, now, endpoint, params);
      match resp
      case Received(status, payload, text) => Returned(Report(status, payload, text))
      case TransportError(_, description) => Raised(RequestException(description))
    }

    /** `get_supported_chains`: `chainId` is always sent, `""` when no chain is named. */
    method SupportedChains(chainName: StrArg) returns (r: Result<DexCall, PyError>)
      ensures var name := Resolve(chainName, DefaultChainName);
        && (r.Success? <==> name == "" || name in Chains)
        && (r.Failure? ==> r.error == KeyError(name))
        && (r.Success? ==>
              && r.value.endpoint == "supported/chain"
              && IsChainParams(r.value.params, if name == "" then "" else Chains[name].chainId))
      ensures chainName.Omitted? ==> r.Success? && IsChainParams(r.value.params, "")
    {
      var name := Resolve(chainName, DefaultChainName);
      var id := "";
      if name != "" {
        var looked := ChainId(name);
        if looked.Failure? {
          return Failure(looked.error);
        }
        id := looked.value;
      }
      var params := Set([], "chainId", Str(id));
      r := Success(DexCall("supported/chain", params));
    }

    /** `get_tokens`. */
    method Tokens(chainName: string) returns (r: Result<DexCall, PyError>)
      ensures r.Success? <==> chainName in Chains
      ensures r.Failure? ==> r.error == KeyError(chainName)
      ensures r.Success? ==>
        && r.value.endpoint == "all-tokens"
        && IsChainParams(r.value.params, Chains[chainName].chainId)
    {
      var looked := ChainId(chainName);
      if looked.Failure? {
        return Failure(looked.error);
      }
      var params := ChainParams(looked.value);
      r := Success(DexCall("all-tokens", params));
    }

    /** `get_liquidity`. */
    method Liquidity(chainName: string) returns (r: Result<DexCall, PyError>)
      ensures r.Success? <==> chainName in Chains
      ensures r.Failure? ==> r.error == KeyError(chainName)
      ensures r.Success? ==>
        && r.value.endpoint == "get-liquidity"
        && IsChainParams(r.value.params, Chains[chainName].chainId)
    {
      var looked := ChainId(chainName);
      if looked.Failure? {
        return Failure(looked.error);
      }
      var params := ChainParams(looked.value);
      r := Success(DexCall("get-liquidity", params));
    }

    /** `get_quote`: an unknown chain name fails before anything is built. */
    method Quote(chainName: string, amount: string, fromToken: string, toToken: string,
                 dexIds: Option<string>, feePercent: Option<string>, impactProtection: Option<string>)
      returns (r: Result<DexCall, PyError>)
      ensures r.Success? <==> chainName in Chains
      ensures r.Failure? ==> r.error == KeyError(chainName)
      ensures r.Success? ==>
        && r.value.endpoint == "quote"
        && IsQuoteParams(r.value.params, Chains[chainName].chainId, amount, fromToken, toToken,
                         dexIds, feePercent, impactProtection)
    {
      var looked := ChainId(chainName);
      if looked.Failure? {
        return Failure(looked.error);
      }
      var params := QuoteParams(looked.value, amount, fromToken, toToken, dexIds, feePercent, impactProtection);
      r := Success(DexCall("quote", params));
    }

    /** `get_approve_transaction`. */
    method ApproveTransaction(chainName: string, tokenAddress: string, approveAmount: string)
      returns (r: Result<DexCall, PyError>)
      ensures r.Success? <==> chainName in Chains
      ensures r.Failure? ==> r.error == KeyError(chainName)
      ensures r.Success? ==>
        && r.value.endpoint == "approve-transaction"
        && IsApproveParams(r.value.params, Chains[chainName].chainId, tokenAddress, approveAmount)
    {
      var looked := ChainId(chainName);
      if looked.Failure? {
        return Failure(looked.error);
      }
      var params := ApproveParams(looked.value, tokenAddress, approveAmount);
      r := Success(DexCall("approve-transaction", params));
    }

    /**
     * `get_swap_transaction`: the wallet is the given user address, or the
     * stored Solana wallet when none is given; an omitted gas level is
     * `"average"`.
     */
    method SwapTransaction(chainName: string, amount: string, fromToken: string, toToken: string,
                           slippage: string, userAddress: Option<string>, receiver: Option<string>,
                           referrer: Option<string>, dexIds: Option<string>, feePercent: Option<string>,
                           gasLimit: Option<string>, gasLevel: StrArg, impactProtection: Option<string>,
                           autoSlippage: Option<string>, maxAutoSlippage: Option<string>)
      returns (r: Result<DexCall, PyError>)
      ensures r.Success? <==> chainName in Chains
      ensures r.Failure? ==> r.error == KeyError(chainName)
      ensures r.Success? ==>
        && r.value.endpoint == "swap"
        && IsSwapParams(r.value.params, Chains[chainName].chainId, amount, fromToken, toToken, slippage,
                        Str(if Given(userAddress) then userAddress.value else solanaWalletAddr),
                        receiver, referrer, dexIds, feePercent, gasLimit, Resolve(gasLevel, DefaultGasLevel),
                        impactProtection, autoSlippage, maxAutoSlippage)
      ensures r.Success? && gasLevel.Omitted? ==> Get(r.value.params, "gasLevel") == Some(Str("average"))
    {
      var looked := ChainId(chainName);
      if looked.Failure? {
        return Failure(looked.error);
      }
      var wallet := if Given(userAddress) then userAddress.value else solanaWalletAddr;
      var level := Resolve(gasLevel, DefaultGasLevel);
      var params := SwapParams(looked.value, amount, fromToken, toToken, slippage, Str(wallet), receiver,
                               referrer, dexIds, feePercent, gasLimit, level,
                               impactProtection, autoSlippage, maxAutoSlippage);
      assert Get(params, "gasLevel") == Sent(Some(level));
      r := Success(DexCall("swap", params));
    }

    /** `buy_token_by_usdt`: a quote from the token to the chain's USDT mint. */
    method BuyTokenByUsdt(chainName: string, tokenAddr: string, amount: string)
      returns (r: Result<DexCall, PyError>)
      ensures r.Success? <==> UsdtAddress(chainName).Success?
      ensures r.Failure? ==> r.error == UsdtAddress(chainName).error
      ensures r.Success? ==>
        && r.value.endpoint == "quote"
        && IsQuoteParams(r.value.params, Chains[chainName].chainId, amount, tokenAddr,
                         UsdtAddress(chainName).value, None, None, None)
    {
      var usdt := UsdtAddress(chainName);
      if usdt.Failure? {
        return Failure(usdt.error);
      }
      r := Quote(chainName, amount, tokenAddr, usdt.value, None, None, None);
    }

    /** `sell_token_to_usdt`: a quote from the chain's USDT mint to the token. */
    method SellTokenToUsdt(chainName: string, tokenAddr: string, amount: string)
      returns (r: Result<DexCall, PyError>)
      ensures r.Success? <==> UsdtAddress(chainName).Success?
      ensures r.Failure? ==> r.error == UsdtAddress(chainName).error
      ensures r.Success? ==>
        && r.value.endpoint == "quote"
        && IsQuoteParams(r.value.params, Chains[chainName].chainId, amount, UsdtAddress(chainName).value,
                         tokenAddr, None, None, None)
    {
      var usdt := UsdtAddress(chainName);
      if usdt.Failure? {
        return Failure(usdt.error);
      }
      r := Quote(chainName, amount, usdt.value, tokenAddr, None, None, None);
    }
  }

  /**
   * `__init__`: the same file reads and checks as okx_wallet.py
   * (`access_key`, `passphrase`, `access_project`, `secret_key`,
   * `solana_wallet_addr`, in that order, then the four credentials
   * non-empty), without the optional account id.
   */
  function Open(file: map<string, string>): (r: Result<OkxDEX, PyError>)
    ensures r.Success? <==> StandaloneWallet.Open(file).Success?
    ensures r.Failure? ==> r.error == StandaloneWallet.Open(file).error
    ensures r.Success? ==>
      r.value == OkxDEX(file["access_key"], file["passphrase"], file["access_project"], file["secret_key"],
                        file["solana_wallet_addr"])
  {
    match StandaloneWallet.Open(file)
    case Success(w) => Success(OkxDEX(w.apiKey, w.passphrase, w.projectId, w.secret, w.solanaWalletAddr))
    case Failure(e) => Failure(e)
  }
}
