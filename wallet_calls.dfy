/**
 * The wallet endpoints: which params or body each operation assembles and
 * which `_request` call it makes. okxpy/wallet/client.py and okx_wallet.py
 * build them with the same code, so both wallet clients share these.
 */
module WalletCalls {
  import opened Wrappers
  import opened Py
  import opened Dispatch
  import opened Text
  import opened Canonical

  /** The declared defaults of `tx_amount`, of the SUI object page size and of the order page size. */
  const DefaultTxAmount := "0"
  const DefaultSuiObjectLimit := "50"
  const DefaultOrderLimit := "20"

  /** The keys of the sign-info and gas-limit body, in the order they are stored. */
  const TransferKeys: seq<string> := ["chainIndex", "fromAddr", "toAddr", "txAmount", "extJson"]

  /** The body of sign-info and gas-limit: four keys always, `extJson` only when given, stored in that order. */
  predicate IsTransferBody(b: Dict, chainIndex: string, fromAddr: string, toAddr: string, txAmount: string,
                           extJson: Option<Dict>)
  {
    DistinctKeys(b) && (forall k :: k in Keys(b) ==> k in TransferKeys) &&
    Get(b, "chainIndex") == Some(Str(chainIndex)) &&
    Get(b, "fromAddr") == Some(Str(fromAddr)) &&
    Get(b, "toAddr") == Some(Str(toAddr)) &&
    Get(b, "txAmount") == Some(Str(txAmount)) &&
    Get(b, "extJson") == SentDict(extJson) &&
    InKeyOrder(b, TransferKeys)
  }

  method TransferBody(chainIndex: string, fromAddr: string, toAddr: string, txAmount: string,
                      extJson: Option<Dict>) returns (body: Dict)
    ensures IsTransferBody(body, chainIndex, fromAddr, toAddr, txAmount, extJson)
  {
    var values := [Some(Str(chainIndex)), Some(Str(fromAddr)), Some(Str(toAddr)), Some(Str(txAmount)),
                   SentDict(extJson)];
    body := Build(TransferKeys, values);
    assert Get(body, TransferKeys[0]) == values[0] && Get(body, TransferKeys[1]) == values[1];
    assert Get(body, TransferKeys[2]) == values[2] && Get(body, TransferKeys[3]) == values[3];
    assert Get(body, TransferKeys[4]) == values[4];
  }

  /** `get_sign_info`. */
  method SignInfo(chainIndex: string, fromAddr: string, toAddr: string, txAmount: StrArg,
                  extJson: Option<Dict>) returns (call: ApiCall)
    ensures call.verb == "POST" && call.endpoint == "pre-transaction/sign-info" && call.params == None
    ensures call.body.Some?
    ensures IsTransferBody(call.body.value, chainIndex, fromAddr, toAddr, Resolve(txAmount, DefaultTxAmount), extJson)
    ensures txAmount.Omitted? ==> Get(call.body.value, "txAmount") == Some(Str("0"))
  {
    var body := TransferBody(chainIndex, fromAddr, toAddr, Resolve(txAmount, DefaultTxAmount), extJson);
    call := ApiCall("POST", "pre-transaction/sign-info", None, Some(body));
  }

  /** `get_gas_limit`: the sign-info body, sent to gas-limit. */
  method GasLimit(chainIndex: string, fromAddr: string, toAddr: string, txAmount: StrArg,
                  extJson: Option<Dict>) returns (call: ApiCall)
    ensures call.verb == "POST" && call.endpoint == "pre-transaction/gas-limit" && call.params == None
    ensures call.body.Some?
    ensures IsTransferBody(call.body.value, chainIndex, fromAddr, toAddr, Resolve(txAmount, DefaultTxAmount), extJson)
    ensures txAmount.Omitted? ==> Get(call.body.value, "txAmount") == Some(Str("0"))
  {
    var body := TransferBody(chainIndex, fromAddr, toAddr, Resolve(txAmount, DefaultTxAmount), extJson);
    call := ApiCall("POST", "pre-transaction/gas-limit", None, Some(body));
  }

  /** `get_gas_price`: exactly `{chainIndex}`. */
  method GasPrice(chainIndex: string) returns (call: ApiCall)
    ensures call.verb == "GET" && call.endpoint == "pre-transaction/gas-price" && call.body == None
    ensures call.params.Some? && DistinctKeys(call.params.value)
    ensures Keys(call.params.value) == {"chainIndex"}
    ensures Get(call.params.value, "chainIndex") == Some(Str(chainIndex))
  {
    var params := Set([], "chainIndex", Str(chainIndex));
    call := ApiCall("GET", "pre-transaction/gas-price", Some(params), None);
  }

  /** The params of nonce and validate-address: exactly `{address, chainIndex}`, in that order. */
  predicate IsAddressParams(p: Dict, chainIndex: string, address: string) {
    DistinctKeys(p) && Keys(p) == {"address", "chainIndex"} &&
    Get(p, "address") == Some(Str(address)) && Get(p, "chainIndex") == Some(Str(chainIndex)) &&
    InKeyOrder(p, ["address", "chainIndex"])
  }

  method AddressParams(chainIndex: string, address: string) returns (params: Dict)
    ensures IsAddressParams(params, chainIndex, address)
  {
    params := Set([], "address", Str(address));
    params := Set(params, "chainIndex", Str(chainIndex));
    assert params == [Entry("address", Str(address)), Entry("chainIndex", Str(chainIndex))];
    assert Before(["address", "chainIndex"], "address", "chainIndex") by {
      assert ["address", "chainIndex"][0] == "address" && ["address", "chainIndex"][1] == "chainIndex";
    }
  }

  /** `get_nonce`. */
  method Nonce(chainIndex: string, address: string) returns (call: ApiCall)
    ensures call.verb == "GET" && call.endpoint == "pre-transaction/nonce" && call.body == None
    ensures call.params.Some? && IsAddressParams(call.params.value, chainIndex, address)
  {
    var params := AddressParams(chainIndex, address);
    call := ApiCall("GET", "pre-transaction/nonce", Some(params), None);
  }

  /** `validate_address`. */
  method ValidateAddress(chainIndex: string, address: string) returns (call: ApiCall)
    ensures call.verb == "GET" && call.endpoint == "pre-transaction/validate-address" && call.body == None
    ensures call.params.Some? && IsAddressParams(call.params.value, chainIndex, address)
  {
    var params := AddressParams(chainIndex, address);
    call := ApiCall("GET", "pre-transaction/validate-address", Some(params), None);
  }

  const SuiObjectKeys: seq<string> := ["chainIndex", "address", "tokenAddress", "limit", "cursor"]

  /** `get_sui_objects`: four keys always, `cursor` only when given, stored in that order. */
  method SuiObjects(chainIndex: string, address: string, tokenAddress: string, limit: StrArg,
                    cursor: Option<string>) returns (call: ApiCall)
    ensures call.verb == "POST" && call.endpoint == "pre-transaction/sui-object" && call.params == None
    ensures call.body.Some? && DistinctKeys(call.body.value)
    ensures forall k :: k in Keys(call.body.value) ==> k in SuiObjectKeys
    ensures Get(call.body.value, "chainIndex") == Some(Str(chainIndex))
    ensures Get(call.body.value, "address") == Some(Str(address))
    ensures Get(call.body.value, "tokenAddress") == Some(Str(tokenAddress))
    ensures Get(call.body.value, "limit") == Some(Str(Resolve(limit, DefaultSuiObjectLimit)))
    ensures limit.Omitted? ==> Get(call.body.value, "limit") == Some(Str("50"))
    ensures Get(call.body.value, "cursor") == Sent(cursor)
    ensures InKeyOrder(call.body.value, SuiObjectKeys)
  {
    var values := [Some(Str(chainIndex)), Some(Str(address)), Some(Str(tokenAddress)),
                   Some(Str(Resolve(limit, DefaultSuiObjectLimit))), Sent(cursor)];
    var body := Build(SuiObjectKeys, values);
    assert Get(body, SuiObjectKeys[0]) == values[0] && Get(body, SuiObjectKeys[1]) == values[1];
    assert Get(body, SuiObjectKeys[2]) == values[2] && Get(body, SuiObjectKeys[3]) == values[3];
    assert Get(body, SuiObjectKeys[4]) == values[4];
    call := ApiCall("POST", "pre-transaction/sui-object", None, Some(body));
  }

  const BroadcastKeys: seq<string> :=
    ["signedTx", "chainIndex", "address", "baseFee", "priorityFee", "recentBlockHash", "lastValidBlockHeight"]

  /** `broadcast_transaction`: three keys always, each fee or block key only when given, stored in that order. */
  method BroadcastTransaction(signedTx: string, chainIndex: string, address: string,
                              baseFee: Option<string>, priorityFee: Option<string>,
                              recentBlockHash: Option<string>, lastValidBlockHeight: Option<string>)
    returns (call: ApiCall)
    ensures call.verb == "POST" && call.endpoint == "pre-transaction/broadcast-transaction" && call.params == None
    ensures call.body.Some? && DistinctKeys(call.body.value)
    ensures forall k :: k in Keys(call.body.value) ==> k in BroadcastKeys
    ensures Get(call.body.value, "signedTx") == Some(Str(signedTx))
    ensures Get(call.body.value, "chainIndex") == Some(Str(chainIndex))
    ensures Get(call.body.value, "address") == Some(Str(address))
    ensures Get(call.body.value, "baseFee") == Sent(baseFee)
    ensures Get(call.body.value, "priorityFee") == Sent(priorityFee)
    ensures Get(call.body.value, "recentBlockHash") == Sent(recentBlockHash)
    ensures Get(call.body.value, "lastValidBlockHeight") == Sent(lastValidBlockHeight)
    ensures InKeyOrder(call.body.value, BroadcastKeys)
  {
    var values := [Some(Str(signedTx)), Some(Str(chainIndex)), Some(Str(address)),
                   Sent(baseFee), Sent(priorityFee), Sent(recentBlockHash), Sent(lastValidBlockHeight)];
    var body := Build(BroadcastKeys, values);
    assert Get(body, BroadcastKeys[0]) == values[0] && Get(body, BroadcastKeys[1]) == values[1];
    assert Get(body, BroadcastKeys[2]) == values[2] && Get(body, BroadcastKeys[3]) == values[3];
    assert Get(body, BroadcastKeys[4]) == values[4] && Get(body, BroadcastKeys[5]) == values[5];
    assert Get(body, BroadcastKeys[6]) == values[6];
    call := ApiCall("POST", "pre-transaction/broadcast-transaction", None, Some(body));
  }

  /** The filters of the order list, in the (alphabetical) order they are stored. */
  const OrderKeys: seq<string> := ["accountId", "address", "chainIndex", "cursor", "limit", "orderId", "txStatus"]

  /**
   * `get_transaction_list`: every filter, `limit` included, is sent exactly
   * when its argument is non-empty, and the filters are stored in alphabetical
   * order, so the query `requests` sends lists them in the very order of the
   * key-sorted query okxpy signs.
   */
  method TransactionList(address: Option<string>, accountId: Option<string>, chainIndex: Option<string>,
                         txStatus: Option<string>, orderId: Option<string>, cursor: Option<string>,
                         limit: StrArg) returns (call: ApiCall)
    ensures call.verb == "GET" && call.endpoint == "post-transaction/orders" && call.body == None
    ensures call.params.Some? && DistinctKeys(call.params.value)
    ensures forall k :: k in Keys(call.params.value) ==> k in OrderKeys
    ensures Get(call.params.value, "accountId") == Sent(accountId)
    ensures Get(call.params.value, "address") == Sent(address)
    ensures Get(call.params.value, "chainIndex") == Sent(chainIndex)
    ensures Get(call.params.value, "cursor") == Sent(cursor)
    ensures Get(call.params.value, "limit") == Sent(Some(Resolve(limit, DefaultOrderLimit)))
    ensures limit.Omitted? ==> Get(call.params.value, "limit") == Some(Str("20"))
    ensures Get(call.params.value, "orderId") == Sent(orderId)
    ensures Get(call.params.value, "txStatus") == Sent(txStatus)
    ensures SortedByKey(call.params.value) && SortByKey(call.params.value) == call.params.value
  {
    var values := [Sent(accountId), Sent(address), Sent(chainIndex), Sent(cursor),
                   Sent(Some(Resolve(limit, DefaultOrderLimit))), Sent(orderId), Sent(txStatus)];
    var params := Build(OrderKeys, values);
    assert Get(params, OrderKeys[0]) == values[0] && Get(params, OrderKeys[1]) == values[1];
    assert Get(params, OrderKeys[2]) == values[2] && Get(params, OrderKeys[3]) == values[3];
    assert Get(params, OrderKeys[4]) == values[4] && Get(params, OrderKeys[5]) == values[5];
    assert Get(params, OrderKeys[6]) == values[6];
    OrderKeysAscending();
    InKeyOrderSorted(params, OrderKeys);
    SortedIsFixed(params);
    call := ApiCall("GET", "post-transaction/orders", Some(params), None);
  }

  /** The order filters are listed in strictly ascending order. */
  lemma OrderKeysAscending()
    ensures Ascending(OrderKeys)
  {
    assert Less("accountId", "address") by { assert Less("ccountId", "ddress"); }
    assert Less("address", "chainIndex");
    assert Less("chainIndex", "cursor") by { assert Less("hainIndex", "ursor"); }
    assert Less("cursor", "limit") && Less("limit", "orderId") && Less("orderId", "txStatus");
    AscendingFromNeighbours(OrderKeys);
  }
}
