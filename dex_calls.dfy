/**
 * The DEX aggregator endpoints: the params each operation assembles and
 * the `_request` call it makes. The quote, approve and swap params are
 * built by the same code in okxpy/dex/client.py and okx_dex.py, so both
 * DEX clients share those builders.
 */
module DexCalls {
  import opened Wrappers
  import opened Py
  import opened Dispatch

  /** The declared default of `gas_level`. */
  const DefaultGasLevel := "average"

  /** `{"chainId": chainId}`, the params of all-tokens and get-liquidity. */
  predicate IsChainParams(p: Dict, chainId: string) {
    DistinctKeys(p) && Keys(p) == {"chainId"} && Get(p, "chainId") == Some(Str(chainId))
  }

  method ChainParams(chainId: string) returns (params: Dict)
    ensures IsChainParams(params, chainId)
  {
    params := Set([], "chainId", Str(chainId));
  }

  const QuoteKeys: seq<string> :=
    ["chainId", "amount", "fromTokenAddress", "toTokenAddress", "dexIds", "feePercent",
     "priceImpactProtectionPercentage"]

  /** The quote params: the four swap coordinates always, each option only when given, stored in that order. */
  predicate IsQuoteParams(p: Dict, chainId: string, amount: string, fromToken: string, toToken: string,
                          dexIds: Option<string>, feePercent: Option<string>, impactProtection: Option<string>)
  {
    DistinctKeys(p) && (forall k :: k in Keys(p) ==> k in QuoteKeys) &&
    Get(p, "chainId") == Some(Str(chainId)) &&
    Get(p, "amount") == Some(Str(amount)) &&
    Get(p, "fromTokenAddress") == Some(Str(fromToken)) &&
    Get(p, "toTokenAddress") == Some(Str(toToken)) &&
    Get(p, "dexIds") == Sent(dexIds) &&
    Get(p, "feePercent") == Sent(feePercent) &&
    Get(p, "priceImpactProtectionPercentage") == Sent(impactProtection) &&
    InKeyOrder(p, QuoteKeys)
  }

  method QuoteParams(chainId: string, amount: string, fromToken: string, toToken: string,
                     dexIds: Option<string>, feePercent: Option<string>, impactProtection: Option<string>)
    returns (params: Dict)
    ensures IsQuoteParams(params, chainId, amount, fromToken, toToken, dexIds, feePercent, impactProtection)
  {
    var values := [Some(Str(chainId)), Some(Str(amount)), Some(Str(fromToken)), Some(Str(toToken)),
                   Sent(dexIds), Sent(feePercent), Sent(impactProtection)];
    params := Build(QuoteKeys, values);
    assert Get(params, QuoteKeys[0]) == values[0] && Get(params, QuoteKeys[1]) == values[1];
    assert Get(params, QuoteKeys[2]) == values[2] && Get(params, QuoteKeys[3]) == values[3];
    assert Get(params, QuoteKeys[4]) == values[4] && Get(params, QuoteKeys[5]) == values[5];
    assert Get(params, QuoteKeys[6]) == values[6];
  }

  const ApproveKeys: seq<string> := ["chainId", "tokenContractAddress", "approveAmount"]

  /** The approve params: exactly chainId, tokenContractAddress and approveAmount, in that order. */
  predicate IsApproveParams(p: Dict, chainId: string, tokenAddress: string, approveAmount: string) {
    DistinctKeys(p) && Keys(p) == {"chainId", "tokenContractAddress", "approveAmount"} &&
    Get(p, "chainId") == Some(Str(chainId)) &&
    Get(p, "tokenContractAddress") == Some(Str(tokenAddress)) &&
    Get(p, "approveAmount") == Some(Str(approveAmount)) &&
    InKeyOrder(p, ApproveKeys)
  }

  method ApproveParams(chainId: string, tokenAddress: string, approveAmount: string) returns (params: Dict)
    ensures IsApproveParams(params, chainId, tokenAddress, approveAmount)
  {
    params := Set([], "chainId", Str(chainId));
    params := Set(params, "tokenContractAddress", Str(tokenAddress));
    params := Set(params, "approveAmount", Str(approveAmount));
    forall i, j | 0 <= i < j < |params| ensures Before(ApproveKeys, params[i].key, params[j].key) {
      assert ApproveKeys[i] == params[i].key && ApproveKeys[j] == params[j].key;
    }
  }

  const SwapKeys: seq<string> :=
    ["chainId", "amount", "fromTokenAddress", "toTokenAddress", "slippage", "userWalletAddress",
     "swapReceiverAddress", "referrerAddress", "dexIds", "feePercent", "gaslimit", "gasLevel",
     "priceImpactProtectionPercentage", "autoSlippage", "maxAutoSlippage"]

  /**
   * The swap params: six keys always (the wallet is whatever value the
   * caller resolved), each option only when given, `gasLevel` only when
   * non-empty, stored in that order.
   */
  predicate IsSwapParams(p: Dict, chainId: string, amount: string, fromToken: string, toToken: string,
                         slippage: string, userWallet: Value, receiver: Option<string>,
                         referrer: Option<string>, dexIds: Option<string>, feePercent: Option<string>,
                         gasLimit: Option<string>, gasLevel: string, impactProtection: Option<string>,
                         autoSlippage: Option<string>, maxAutoSlippage: Option<string>)
  {
    DistinctKeys(p) && (forall k :: k in Keys(p) ==> k in SwapKeys) &&
    Get(p, "chainId") == Some(Str(chainId)) &&
    Get(p, "amount") == Some(Str(amount)) &&
    Get(p, "fromTokenAddress") == Some(Str(fromToken)) &&
    Get(p, "toTokenAddress") == Some(Str(toToken)) &&
    Get(p, "slippage") == Some(Str(slippage)) &&
    Get(p, "userWalletAddress") == Some(userWallet) &&
    Get(p, "swapReceiverAddress") == Sent(receiver) &&
    Get(p, "referrerAddress") == Sent(referrer) &&
    Get(p, "dexIds") == Sent(dexIds) &&
    Get(p, "feePercent") == Sent(feePercent) &&
    Get(p, "gaslimit") == Sent(gasLimit) &&
    Get(p, "gasLevel") == Sent(Some(gasLevel)) &&
    Get(p, "priceImpactProtectionPercentage") == Sent(impactProtection) &&
    Get(p, "autoSlippage") == Sent(autoSlippage) &&
    Get(p, "maxAutoSlippage") == Sent(maxAutoSlippage) &&
    InKeyOrder(p, SwapKeys)
  }

  method SwapParams(chainId: string, amount: string, fromToken: string, toToken: string,
                    slippage: string, userWallet: Value, receiver: Option<string>,
                    referrer: Option<string>, dexIds: Option<string>, feePercent: Option<string>,
                    gasLimit: Option<string>, gasLevel: string, impactProtection: Option<string>,
                    autoSlippage: Option<string>, maxAutoSlippage: Option<string>)
    returns (params: Dict)
    ensures IsSwapParams(params, chainId, amount, fromToken, toToken, slippage, userWallet, receiver,
                         referrer, dexIds, feePercent, gasLimit, gasLevel, impactProtection,
                         autoSlippage, maxAutoSlippage)
  {
    var values := [Some(Str(chainId)), Some(Str(amount)), Some(Str(fromToken)), Some(Str(toToken)),
                   Some(Str(slippage)), Some(userWallet), Sent(receiver), Sent(referrer), Sent(dexIds),
                   Sent(feePercent), Sent(gasLimit), Sent(Some(gasLevel)), Sent(impactProtection),
                   Sent(autoSlippage), Sent(maxAutoSlippage)];
    assert Distinct(SwapKeys);
    params := Build(SwapKeys, values);
    assert Get(params, SwapKeys[0]) == values[0] && Get(params, SwapKeys[1]) == values[1];
    assert Get(params, SwapKeys[2]) == values[2] && Get(params, SwapKeys[3]) == values[3];
    assert Get(params, SwapKeys[4]) == values[4] && Get(params, SwapKeys[5]) == values[5];
    assert Get(params, SwapKeys[6]) == values[6] && Get(params, SwapKeys[7]) == values[7];
    assert Get(params, SwapKeys[8]) == values[8] && Get(params, SwapKeys[9]) == values[9];
    assert Get(params, SwapKeys[10]) == values[10] && Get(params, SwapKeys[11]) == values[11];
    assert Get(params, SwapKeys[12]) == values[12] && Get(params, SwapKeys[13]) == values[13];
    assert Get(params, SwapKeys[14]) == values[14];
  }

  /** `DexClient.get_supported_chains`: `chainId` is sent only when given. */
  method SupportedChains(chainId: Option<string>) returns (call: ApiCall)
    ensures call.verb == "GET" && call.endpoint == "supported/chain" && call.body == None
    ensures call.params.Some? && DistinctKeys(call.params.value)
    ensures Keys(call.params.value) == KeyIf(Given(chainId), "chainId")
    ensures Get(call.params.value, "chainId") == Sent(chainId)
  {
    var params: Dict := [];
    if Given(chainId) {
      params := Set(params, "chainId", Str(chainId.value));
    }
    call := ApiCall("GET", "supported/chain", Some(params), None);
  }

  /** `DexClient.get_tokens`. */
  method Tokens(chainId: string) returns (call: ApiCall)
    ensures call.verb == "GET" && call.endpoint == "all-tokens" && call.body == None
    ensures call.params.Some? && IsChainParams(call.params.value, chainId)
  {
    var params := ChainParams(chainId);
    call := ApiCall("GET", "all-tokens", Some(params), None);
  }

  /** `DexClient.get_liquidity`. */
  method Liquidity(chainId: string) returns (call: ApiCall)
    ensures call.verb == "GET" && call.endpoint == "get-liquidity" && call.body == None
    ensures call.params.Some? && IsChainParams(call.params.value, chainId)
  {
    var params := ChainParams(chainId);
    call := ApiCall("GET", "get-liquidity", Some(params), None);
  }

  /** `DexClient.get_quote`. */
  method Quote(chainId: string, amount: string, fromToken: string, toToken: string,
               dexIds: Option<string>, feePercent: Option<string>, impactProtection: Option<string>)
    returns (call: ApiCall)
    ensures call.verb == "GET" && call.endpoint == "quote" && call.body == None && call.params.Some?
    ensures IsQuoteParams(call.params.value, chainId, amount, fromToken, toToken, dexIds, feePercent, impactProtection)
  {
    var params := QuoteParams(chainId, amount, fromToken, toToken, dexIds, feePercent, impactProtection);
    call := ApiCall("GET", "quote", Some(params), None);
  }

  /** `DexClient.get_approve_transaction`. */
  method ApproveTransaction(chainId: string, tokenAddress: string, approveAmount: string) returns (call: ApiCall)
    ensures call.verb == "GET" && call.endpoint == "approve-transaction" && call.body == None && call.params.Some?
    ensures IsApproveParams(call.params.value, chainId, tokenAddress, approveAmount)
  {
    var params := ApproveParams(chainId, tokenAddress, approveAmount);
    call := ApiCall("GET", "approve-transaction", Some(params), None);
  }

  /** `DexClient.get_swap_transaction`. */
  method SwapTransaction(chainId: string, amount: string, fromToken: string, toToken: string,
                         slippage: string, userAddress: string, receiver: Option<string>,
                         referrer: Option<string>, dexIds: Option<string>, feePercent: Option<string>,
                         gasLimit: Option<string>, gasLevel: StrArg, impactProtection: Option<string>,
                         autoSlippage: Option<string>, maxAutoSlippage: Option<string>)
    returns (call: ApiCall)
    ensures call.verb == "GET" && call.endpoint == "swap" && call.body == None && call.params.Some?
    ensures IsSwapParams(call.params.value, chainId, amount, fromToken, toToken, slippage, Str(userAddress),
                         receiver, referrer, dexIds, feePercent, gasLimit, Resolve(gasLevel, DefaultGasLevel),
                         impactProtection, autoSlippage, maxAutoSlippage)
    ensures gasLevel.Omitted? ==> Get(call.params.value, "gasLevel") == Some(Str("average"))
  {
    var params := SwapParams(chainId, amount, fromToken, toToken, slippage, Str(userAddress), receiver,
                             referrer, dexIds, feePercent, gasLimit, Resolve(gasLevel, DefaultGasLevel), impactProtection,
                             autoSlippage, maxAutoSlippage);
    call := ApiCall("GET", "swap", Some(params), None);
  }
}
