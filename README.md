# okxpy in Dafny

A model of the request-building core of okxpy, a Python client for the OKX
Web3 APIs (wallet, DEX aggregator, DeFi explore). The model covers:

- **Signing.** How a request is signed. This is the message each signer
  builds from a timestamp, the method, the path and the params or body, then
  hands to HMAC-SHA256 and Base64. Three signers are modelled, and they differ:
  - okxpy's `OKXAuth` sorts the query and compares the method case-sensitively.
  - okx_wallet.py upper-cases the method and renders the body with `json.dumps`.
  - okx_dex.py keeps insertion order and always writes a `?`.
- **Result normalisation.** How each `_request` turns a response or a
  transport exception into the dict it returns.
- **Parameter assembly.** How every endpoint builder assembles its params or
  body, one conditional store at a time.
- **`OKXClient` construction.** How it resolves and checks its credentials
  and wires one auth object into every service client.

Python dicts are insertion-ordered sequences of entries (`Py.Dict`) with
distinct keys. `d[k] = v` is `Py.Set`: a new key goes to the end, and an
existing key keeps its place. `if x:` is Python truthiness (`Py.Given`,
`Py.Sent`). A `str` parameter with a declared default other than None is a
`Py.StrArg`: `Omitted` takes the default, which each module names as a
constant (`tx_amount="0"`, `limit="50"` or `"20"`, `gas_level="average"`,
`chain_name=""`). A builder that stores a fixed list of keys, some of them
conditionally, is a method over `Py.Build`. Each builder's contract says
what it stores:

- which keys may appear;
- the value under each key;
- for an optional argument, that its key is present exactly when the
  argument is truthy;
- the order in which the keys are stored (`Py.InKeyOrder`), which fixes the
  order of the query `requests` sends, of `str(body)` and of `json.dumps(body)`.

The three okxpy domain clients (okxpy/wallet/client.py, okxpy/dex/client.py,
okxpy/defi/explore.py) run the same `_request` code and differ only in their
service path. `Dispatch.DomainClient` stands for all three; the table cites
the wallet copy, and lines 13-34 of the other two files are the same code.

Some builder code is identical in two files, so it is modelled once:

- okx_wallet.py:137-246 has the same wallet builders as
  okxpy/wallet/client.py:36-214, so both are modelled by `WalletCalls`.
- The quote, approve and swap params of okx_dex.py are built by the same
  code as in okxpy/dex/client.py, so `DexCalls` is shared.

| file | modules |
|---|---|
| okxpy/auth.py | `Timestamp`, `Canonical`, `Auth` |
| `_request` of the okxpy domain clients | `Dispatch` |
| okxpy/wallet/client.py, okx_wallet.py builders | `WalletCalls` |
| okxpy/dex/client.py | `DexCalls` |
| okxpy/defi/explore.py | `DefiExplore` |
| okxpy/client.py | `Client` |
| okx_wallet.py | `StandaloneWallet` |
| okx_dex.py | `StandaloneDex` |

`Py` (dicts, truthiness, exceptions), `Text` (`str(int)`, `%0Nd`, ASCII
`str.upper`, `str.replace`, `str` ordering) and `Wrappers` are support
modules.

## Model

| member | source | states |
|---|---|---|
| Timestamp.UtcTimestamp | okxpy/auth.py:14-16 | The timestamp is 24 characters, `YYYY-MM-DDThh:mm:ss.sssZ`: digits and fixed separators, ending in a literal `Z` (the `+00:00` offset replaced). |
| Timestamp.ParseRoundTrip | okxpy/auth.py:14-16 | Reading the timestamp back gives the current UTC instant truncated to the millisecond, so nothing but sub-millisecond precision is lost. |
| Timestamp.TimestampInjective | okxpy/auth.py:14-16 | Two instants give the same timestamp exactly when they agree to the millisecond. |
| Canonical.SortByKey | okxpy/auth.py:27 | `sorted(params.items())` holds exactly the dict's items, each as often as the dict does. |
| Canonical.Query | okxpy/auth.py:28 | The joined query is empty exactly when there are no items. |
| Canonical.QueryJoin | okxpy/auth.py:28 | The query of two non-empty runs of items is their two queries joined by one `&`. |
| Canonical.SortByKeySorted | okxpy/auth.py:27 | `sorted(params.items())` of a dict puts its items in strictly ascending key order. |
| Canonical.SortByKeyPermutationInvariant | okxpy/auth.py:27-28 | Two dicts holding the same key/value pairs, in whatever insertion order, sort to the same sequence. |
| Auth.Message | okxpy/auth.py:25-34 | The signed message always starts with timestamp, method and path. A method other than exactly `GET`/`POST`, a GET without params and a POST without a body sign nothing more. |
| Auth.GetMessageSorted | okxpy/auth.py:26-29 | A GET with non-empty params signs timestamp + `GET` + path + `?` + the `k=v` pairs joined by `&`, in ascending key order, and holding exactly the params' items. |
| Auth.GetSignaturePermutationInvariant | okxpy/auth.py:23-29 | The signature of a GET is the same for any insertion order of the same params. |
| Auth.PostMessageIgnoresParams | okxpy/auth.py:30-32 | A POST with a non-empty body signs timestamp + `POST` + path + `str(body)`, whatever params are passed. |
| Auth.NoQueryWithoutParams | okxpy/auth.py:26-34 | An empty or absent params dict, or a GET spelled `get`, signs timestamp + method + path with no `?`; an empty or absent body makes a POST sign timestamp + `POST` + path. |
| Auth.MessageSeparatesTimestamps | okxpy/auth.py:29-34 | Requests that differ only in their timestamps sign different messages. |
| Auth.OKXAuth.Sign | okxpy/auth.py:18-45 | One timestamp is read; it is both the message prefix and the returned timestamp, it is well formed and denotes the current instant, and the signature is `Sig(secret_key, message)`. |
| Auth.HeaderDict | okxpy/auth.py:51-58 | Exactly six distinct headers: Content-Type `application/json`, and the key, signature, timestamp, passphrase and project copied unchanged. |
| Auth.OKXAuth.Headers | okxpy/auth.py:47-58 | SIGN and TIMESTAMP come from one single `sign` call over the same method, path, params and body. |
| Auth.HeadersAccepted | okxpy/auth.py:47-58 | A verifier that rebuilds okxpy's canonical message (sorted query, `str(body)`) from the TIMESTAMP header and its copy of the secret and the request accepts the SIGN header: a round trip of the headers. |
| Dispatch.ErrorRecord | okxpy/wallet/client.py:26-34 | The error dict has exactly the keys `code` and `msg`, holding the given code and message. |
| Dispatch.Normalise | okxpy/wallet/client.py:24-34 | 200 gives the payload. Any other status gives `{code: str(status), msg: text}`, and the code reads back as the status. A transport exception gives code `"500"` with the exception text. |
| Dispatch.DomainClient.Url | okxpy/wallet/client.py:15 | The URL is the host followed by exactly the path that is signed. |
| Dispatch.DomainClient.Outgoing | okxpy/wallet/client.py:13-22 | Headers are signed over service path + `/` + endpoint, with no query. GET sends the params and POST the body. Any other method sends nothing and raises `UnboundLocalError` on `response`. |
| Dispatch.DomainClient.Request | okxpy/wallet/client.py:13-34 | GET and POST return the normalised response; other methods raise `UnboundLocalError`. |
| Dispatch.OutgoingAccepted | okxpy/wallet/client.py:15-22 | For GET and POST, a verifier that rebuilds okxpy's canonical message over the URL's path and the call's params or body accepts the headers. This is a round trip of the headers; the wire carries the params in insertion order and the body as JSON. |
| Dispatch.NetworkFailuresAreReturned | okxpy/wallet/client.py:24-34 | For GET and POST no response and no transport failure escapes. The result is the payload (200) or a `{code, msg}` dict. |
| WalletCalls.TransferBody | okxpy/wallet/client.py:48-55 | The body has chainIndex, fromAddr, toAddr and txAmount; extJson appears exactly when given; no other key appears; the keys are stored in that order. |
| WalletCalls.SignInfo | okxpy/wallet/client.py:36-57 | A POST to `pre-transaction/sign-info` with the transfer body and no params; an omitted `tx_amount` sends txAmount `"0"`. |
| WalletCalls.GasPrice | okxpy/wallet/client.py:59-67 | A GET to `pre-transaction/gas-price` whose params are exactly `{chainIndex}`. |
| WalletCalls.GasLimit | okxpy/wallet/client.py:69-90 | A POST to `pre-transaction/gas-limit` with the transfer body and no params; an omitted `tx_amount` sends txAmount `"0"`. |
| WalletCalls.AddressParams | okxpy/wallet/client.py:100-103 | The params are exactly `{address, chainIndex}` with the given values, stored in that order. |
| WalletCalls.Nonce | okxpy/wallet/client.py:92-104 | A GET to `pre-transaction/nonce` with exactly address and chainIndex. |
| WalletCalls.SuiObjects | okxpy/wallet/client.py:106-127 | A POST to `pre-transaction/sui-object`. The body has chainIndex, address, tokenAddress and limit (`"50"` when omitted); cursor appears exactly when given; no other key appears; the keys are stored in that order. |
| WalletCalls.ValidateAddress | okxpy/wallet/client.py:129-141 | A GET to `pre-transaction/validate-address` with exactly address and chainIndex. |
| WalletCalls.BroadcastTransaction | okxpy/wallet/client.py:143-175 | A POST to `pre-transaction/broadcast-transaction`. signedTx, chainIndex and address are always present. baseFee, priorityFee, recentBlockHash and lastValidBlockHeight each appear exactly when given. No other key appears, and the keys are stored in that order. |
| WalletCalls.TransactionList | okxpy/wallet/client.py:177-214 | A GET to `post-transaction/orders`. Each of the seven filters is present exactly when its argument is non-empty; an omitted limit is `"20"`. No other key appears. The filters are stored in alphabetical order, so the params are sorted by key and `sorted(params.items())` lists them as sent. |
| DexCalls.ChainParams | okxpy/dex/client.py:55 | The params are exactly `{chainId}`. |
| DexCalls.QuoteParams | okxpy/dex/client.py:88-100 | chainId, amount, fromTokenAddress and toTokenAddress are always present. dexIds, feePercent and priceImpactProtectionPercentage each appear exactly when given. No other key appears, and the keys are stored in that order. |
| DexCalls.ApproveParams | okxpy/dex/client.py:116-120 | The params are exactly chainId, tokenContractAddress and approveAmount, stored in that order. |
| DexCalls.SwapParams | okxpy/dex/client.py:159-186 | Six keys are always present. Each option appears exactly when given. gas_limit goes under `gaslimit`. gasLevel is present unless empty. No other key appears, and the keys are stored in the order of the source. |
| DexCalls.SupportedChains | okxpy/dex/client.py:36-46 | A GET to `supported/chain` whose params are `{chainId}` when a chain id is given and `{}` otherwise. |
| DexCalls.Tokens | okxpy/dex/client.py:48-56 | A GET to `all-tokens` with exactly `{chainId}`. |
| DexCalls.Liquidity | okxpy/dex/client.py:58-66 | A GET to `get-liquidity` with exactly `{chainId}`. |
| DexCalls.Quote | okxpy/dex/client.py:68-102 | A GET to `quote` with the quote params. |
| DexCalls.ApproveTransaction | okxpy/dex/client.py:104-121 | A GET to `approve-transaction` with exactly its three keys. |
| DexCalls.SwapTransaction | okxpy/dex/client.py:123-188 | A GET to `swap` with the swap params; the wallet is the given user address, and an omitted gas level is `"average"`. |
| DefiExplore.ExploreClient | okxpy/defi/explore.py:8-16 | The explore client holds the given auth object, and its URL is the host followed by exactly the path it signs, `/api/v5/defi/explore/` + endpoint. |
| DefiExplore.TwoFilters | okxpy/defi/explore.py:45-49 | Each of the two optional filters is present exactly when given, nothing else is, and the first is stored before the second. |
| DefiExplore.ProtocolList | okxpy/defi/explore.py:36-51 | A GET to `protocol/list`; platformId and platformName are each present exactly when given, in that order; `{}` when neither is. |
| DefiExplore.TokenList | okxpy/defi/explore.py:53-68 | A GET to `token/list`; tokenAddress and chainId are each present exactly when given, in that order. |
| DefiExplore.ProductList | okxpy/defi/explore.py:70-107 | A POST to `product/list`. network, simplifyInvestType and limit (`"20"` when omitted) are always present. poolVersion, platformIds, tokenIds, sort and offset each appear exactly when non-empty: the id lists as JSON lists, sort as an object. No other key appears, and the keys are stored in that order. |
| DefiExplore.ProductDetail | okxpy/defi/explore.py:109-122 | A GET to `product/detail` whose keys are investmentId plus investmentCategory exactly when given, in that order. |
| DefiExplore.NetworkList | okxpy/defi/explore.py:124-139 | A GET to `network-list`; network and chainId are each present exactly when given, in that order. |
| Client.ReadFields | okxpy/client.py:20-31 | Without a credentials path the explicit arguments are used verbatim. With one, the file's access_key, secret_key, passphrase and access_project are used, and the first missing one raises `KeyError`. |
| Client.Validate | okxpy/client.py:33-42 | `ValueError("Missing required credentials")` exactly when one of the four values is None or empty; otherwise the auth object holds exactly those four values. |
| Client.OKXClient.Create | okxpy/client.py:12-48 | Construction fails before any auth object exists when reading or validation fails. Otherwise a fresh client stores the four values, and its wallet, dex, marketplace and defi clients all share its one auth object. |
| StandaloneWallet.Message | okx_wallet.py:57-75 | The message starts with timestamp + upper-cased method + `/api/v5/wallet/` + endpoint, and adds nothing for methods other than GET/POST, for a GET without params or for a POST without a body. |
| StandaloneWallet.MethodCaseIgnored | okx_wallet.py:61-75 | The method's case does not matter: the message for any method equals the message for its upper-cased form. |
| StandaloneWallet.GetAgreesWithAuth | okx_wallet.py:64-69 | A GET in any case signs exactly what okxpy's signer signs for `GET` on the wallet path: the key-sorted query after `?`. |
| StandaloneWallet.PostSignsJsonBody | okx_wallet.py:70-73 | A POST with a non-empty body signs timestamp + `POST` + path + `json.dumps(body)`, whatever the params. |
| StandaloneWallet.OkxWallet.Sign | okx_wallet.py:50-95 | A supplied timestamp is used verbatim and returned unchanged. Otherwise the current instant is formatted. The signature is `Sig(secret, message)` over the returned timestamp. |
| StandaloneWallet.OkxWallet.Outgoing | okx_wallet.py:101-121 | The URL is the host + `/api/v5/wallet/` + endpoint. The headers carry key, passphrase, project, one fresh timestamp and the signature over it. GET sends the params and POST the body. Any other method raises `UnboundLocalError`. |
| StandaloneWallet.LowercaseGetSignedButNotSent | okx_wallet.py:104-121 | `"get"` is signed exactly like `"GET"`, but `_request` compares case-sensitively and raises `UnboundLocalError`. |
| StandaloneWallet.Report | okx_wallet.py:123-135 | 200 gives the payload; another status gives `{code: str(status), msg: text}`; a transport exception gives the status of the response it carries, or `"500"`. |
| StandaloneWallet.ReportDiffersOnlyOnAttachedStatus | okx_wallet.py:131-135 | It differs from okxpy's normalisation exactly on a transport exception that carries a response whose status is not 500. |
| StandaloneWallet.OkxWallet.Request | okx_wallet.py:101-135 | GET and POST return the wallet's normalised result; other methods raise `UnboundLocalError`. |
| StandaloneWallet.Open | okx_wallet.py:29-41 | access_key, passphrase, access_project, secret_key and solana_wallet_addr are read in that order, and the first missing one raises `KeyError`. account_id is optional. `ValueError` is raised exactly when one of the four credentials is empty. |
| StandaloneDex.ChainId | okx_dex.py:22-54 | The chain-id lookup succeeds exactly for a name in `CHAINS`; an unknown name raises `KeyError(name)`. |
| StandaloneDex.UsdtAddress | okx_dex.py:22-54 | The USDT-mint lookup succeeds exactly for a chain that has one; an unknown chain fails on the chain name first. |
| StandaloneDex.ChainTable | okx_dex.py:22-54 | Exactly Solana (id `501`, USDT mint `Es9v…wNYB`) and Ethereum (id `1`) are known, and Ethereum has no `USDT_MINT_ADDR`. |
| StandaloneDex.Message | okx_dex.py:74-77 | The message always starts with timestamp + `GET/api/v5/dex/aggregator/` + endpoint + `?`. |
| StandaloneDex.SortedMessageAgreesWithAuth | okx_dex.py:76-77 | With non-empty params already in key order, it signs what okxpy's signer signs for the same GET. |
| StandaloneDex.EmptyMessageEndsInQuery | okx_dex.py:76-77 | With no params the message is okxpy's message plus a trailing `?`. |
| StandaloneDex.MessageDependsOnOrder | okx_dex.py:76 | The query is not sorted: the same pairs inserted in two orders sign different messages. |
| StandaloneDex.HeaderDict | okx_dex.py:92-99 | Six distinct headers, with Content-Type `application/json` and the project, key, signature, passphrase and timestamp copied unchanged. |
| StandaloneDex.OkxDEX.Sign | okx_dex.py:74-82 | The signature is `Sig(secret, ts + "GET/api/v5/dex/aggregator/" + endpoint + "?" + query)`. |
| StandaloneDex.OkxDEX.Outgoing | okx_dex.py:84-102 | Absent params become `{}`. That same dict is signed and sent as a GET to the host + `/api/v5/dex/aggregator/` + endpoint, under one timestamp. |
| StandaloneDex.Report | okx_dex.py:104-110 | 200 gives the payload; another status gives exactly `{ErrorCode: status as an integer, ErrorMsg: text}`. |
| StandaloneDex.ReportAgreesWithOkxpy | okx_dex.py:104-110 | The integer ErrorCode is the status whose decimal digits okxpy writes under `code`, and the message text is the same. |
| StandaloneDex.OkxDEX.Request | okx_dex.py:84-110 | A response is reported; a transport exception escapes as the `RequestException`. |
| StandaloneDex.OkxDEX.SupportedChains | okx_dex.py:112-116 | `chainId` is always sent: `""` when the chain name is omitted or empty, otherwise the named chain's id. An unknown name raises `KeyError`. |
| StandaloneDex.OkxDEX.Tokens | okx_dex.py:118-121 | `all-tokens` with exactly the chain's id, or `KeyError` for an unknown chain. |
| StandaloneDex.OkxDEX.Liquidity | okx_dex.py:123-126 | `get-liquidity` with exactly the chain's id, or `KeyError` for an unknown chain. |
| StandaloneDex.OkxDEX.Quote | okx_dex.py:128-151 | chainId is `CHAINS[name].chain_id`, plus amount, fromTokenAddress and toTokenAddress. The three options appear exactly when given. An unknown chain raises `KeyError`. |
| StandaloneDex.OkxDEX.ApproveTransaction | okx_dex.py:153-163 | `approve-transaction` with exactly chainId, tokenContractAddress and approveAmount, or `KeyError`. |
| StandaloneDex.OkxDEX.SwapTransaction | okx_dex.py:165-211 | The swap params. userWalletAddress is the given address, or the stored solana_wallet_addr when none is given. An omitted gas level is `"average"`, and gasLevel is present unless empty. An unknown chain raises `KeyError`. |
| StandaloneDex.OkxDEX.BuyTokenByUsdt | okx_dex.py:213-220 | A quote from the token to the chain's USDT mint. It fails as the USDT lookup does: `KeyError("USDT_MINT_ADDR")` for Ethereum. |
| StandaloneDex.OkxDEX.SellTokenToUsdt | okx_dex.py:222-229 | The same quote with from and to swapped: from the USDT mint to the token, with the same failures. |
| StandaloneDex.Open | okx_dex.py:61-72 | The same reads, order and `KeyError`/`ValueError` as okx_wallet.py, keeping the five values (no account id). |

## Left out

- HTTP transport and response parsing: responses are an input datatype, `Dispatch.Response`, holding the status, the parsed JSON and the text, or a transport exception with the status of the response it may carry.
- HMAC-SHA256, Base64, Python's `str()` of a non-string value and `json.dumps` are not modelled. They are function-valued parameters (`Canonical.Primitives`), deterministic but uninterpreted.
- The clock: the current UTC instant is a parameter.
- Reading the credentials file: its parsed contents arrive as a map of strings.
- Non-string values in the credentials file are not modelled.
- The debug `print`s of okx_wallet.py:77-82 and 94, and its `except` that re-raises at 97-99: they change no result.
- `requests`' URL-encoding of params: the model records the dict that is sent, not its encoded form.
- Timestamp.UtcTimestamp: covers years 1-9999 only, the range of Python's `datetime`.
- Text.Upper: models `str.upper` on ASCII only.
- The marketplace client (`MarketplaceClient`), `DefiClient` and the modules under okxpy/utils are not part of this model. `OKXClient` records only the auth object it hands them.
- okxpy/defi/client.py imports names that the shown DeFi modules do not define.
- The stub DeFi clients (okxpy/defi/transaction.py, calculator.py, user.py), okxpy/dex/constants.py, the package `__init__` files and setup.py hold no logic to model.
- StandaloneDex.Chains: holds okx_dex.py's `CHAINS` table in full, but none of its other addresses is used by a modelled operation.
- Auth.HeaderDict: the order of the headers is not stated, only their names and values; no signed message depends on it.
- StandaloneDex.HeaderDict: likewise states the six headers' names and values, not their order.
- The `credentials_path` default `"okx_credentials.json"`: the file's contents are an input, so its name is not modelled.
