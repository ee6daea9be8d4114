# BTC Markets client: request pipeline and trade history

This project is a Dafny model of the request and trade-history logic of a Python
REST client for the BTC Markets exchange. It covers three source files.

- `btc_markets_client.py` (module `BtcMarketsClient`). It classifies an HTTP reply
  (`check_response_data`). It builds the signed payload `"GET/" + path + nonce` and
  the six authentication headers of the exchange's v3 API (`_headers`,
  `_generate_auth_headers`). It builds the query parameters of the trade-history
  request (`get_my_trades`).
- `rest_assistant.py` (module `RestAssistant`). It assembles a request: the default
  `Content-Type` depends on the method, caller headers are merged on top, and the
  body is serialised when there is one. It authenticates the request only when an
  authenticator exists and the request asks for it. It classifies the reply by
  status, and on a failure it redacts HTML bodies to `"N/A"`.
- `btc_markets_client_wrapper.py` (module `ClientWrapper`). It covers the AUD price
  short cut, the balance and market scans, and `get_trades`/`format_data`. Those two
  take one page of trades, drop rows after the end date, sort latest first, fail on
  an empty result, rename and add columns, map `Ask`/`Bid` to `sell`/`buy`, and keep
  eight columns in a fixed order.

Three helper modules support them:

- `Wrappers` holds `Option` and `Result`.
- `Strings` holds Python's substring test and `str(int)`, proved against a
  reference definition and a parser.
- `JsonValue` holds decoded JSON values, with Python truthiness and Python's `== 0`.

Things the model takes as inputs:

- The HMAC-SHA512 signature (RFC 2104), base64-encoded (section 4 of RFC 4648), is
  the function parameter `Signer`.
- The connection is `Transport`, `AuthBase.rest_authenticate` is `Authenticator`,
  and `json.dumps` is `Serializer`.
- The clock reading (the nonce) and the exchange's replies are plain inputs.

Points where the code behaves differently from what one might expect, modelled as the code has them:

- `get_asset_balance` returns 0.0 when no entry matches. It does not signal not-found.
- The HTML check is a substring test (`"<html" in body`), not a prefix test.
- `check_response_data` accepts only status 200. The assistant accepts any status below 400.
- The signed payload always starts with `GET` and always has an empty body suffix.
- `get_trades` fetches exactly one page.
- `get_my_trades` ignores its `startTime` argument.
- Unknown side tokens pass through unchanged.
- The authentication headers always carry `Content-Type: application/json`, GET requests included. The form-urlencoded type for GET belongs only to the assistant's default, which caller headers override.

## Model

| member | source | states |
|---|---|---|
| `BtcMarketsClient.CheckResponseData` | src/btc_markets/btc_markets_client.py:21-40 | A status other than 200 fails with (status, text) whatever the body. A 200 reply that does not decode fails with (-1, content). `code == 0` gives the `data` member, or the whole object when there is none. Any other code fails with (200, text). A falsy body, or an object without `code`, comes back unchanged. A truthy non-object comes back unchanged unless Python's `in` or `.get` raises on it. Success implies status 200. |
| `BtcMarketsClient.PayloadLayout` | src/btc_markets/btc_markets_client.py:84 | The payload is `"GET/"`, then the path, then `str(nonce)`, and its length is the sum of those three parts. |
| `BtcMarketsClient.PayloadParts` | src/btc_markets/btc_markets_client.py:84 | Both the path and the nonce can be read back out of the payload: the path sits at positions 4 to 4+len(path), and the digits after it parse back to the nonce. |
| `BtcMarketsClient.PayloadDistinguishesNonces` | src/btc_markets/btc_markets_client.py:84-85 | With the path fixed, different nonces give different signed payloads. |
| `BtcMarketsClient.PayloadDistinguishesPaths` | src/btc_markets/btc_markets_client.py:84-85 | With the nonce fixed, different paths give different signed payloads. |
| `BtcMarketsClient.PayloadJoinsPathAndNonce` | src/btc_markets/btc_markets_client.py:84 | Nothing separates path and nonce: ("a1", 23) and ("a", 123) sign the same payload. |
| `BtcMarketsClient.AuthHeaders` | src/btc_markets/btc_markets_client.py:89-102 | The header map has exactly the six keys. The fixed Accept, Accept-Charset and Content-Type values are set. It carries the API key, `str(nonce)`, which reads back as the nonce, and the signature. |
| `BtcMarketsClient.Headers` | src/btc_markets/btc_markets_client.py:80-87 | Fails with KeyError iff `header_meta` has no `path`. Otherwise it returns the six headers. The timestamp header reads back as the nonce. The signature header is the signer applied to the secret and to `"GET/" + path + timestamp header`, so it is determined by (secret, path, nonce). The whole map is `AuthHeaders` of the API key, the nonce and that signature, so the Accept, Accept-Charset and Content-Type values are the fixed ones. |
| `BtcMarketsClient.GetMyTrades` | src/btc_markets/btc_markets_client.py:42-52 | A GET to the trades path with `header_meta = {path}`. The parameter keys are marketId, limit and the kwargs keys. Every kwarg keeps its value, including overrides. Otherwise marketId is the symbol and limit is 100. Keyword arguments cannot include startTime, and it never appears in the parameters. |
| `Strings.DecimalRoundTrip` | src/btc_markets/btc_markets_client.py:98 | `str(n)` of any integer, negative included, reads back as n. |
| `Strings.DecimalStringInjective` | src/btc_markets/btc_markets_client.py:84 | Different integers render as different strings. |
| `Strings.ContainsIffOccurs` | src/btc_markets/rest_assistant.py:64 | The scanning substring test holds iff the substring occupies some range of positions of the string. |
| `RestAssistant.DefaultContentType` | src/btc_markets/rest_assistant.py:40-41 | `application/x-www-form-urlencoded` iff the method is GET, `application/json` iff it is not. |
| `RestAssistant.BuildRequest` | src/btc_markets/rest_assistant.py:38-54 | The header keys are Content-Type plus the caller's keys. Every caller header, Content-Type included, has the caller's value. Without a caller Content-Type the method default applies. The body is serialised iff it is not None (JNull stands for Python's None). The other fields are copied. |
| `RestAssistant.Authenticate` | src/btc_markets/rest_assistant.py:75-78 | The authenticator is applied iff it exists and the request is flagged. Otherwise the request passes through unchanged. |
| `RestAssistant.Call` | src/btc_markets/rest_assistant.py:69-73 | The transport receives the authenticated copy of the request, and its reply is returned. |
| `RestAssistant.ParsedBody` | src/btc_markets/rest_assistant.py:67 | Succeeds iff the body decodes, with the decoded value. Otherwise it is a malformed-JSON error with the status. |
| `RestAssistant.ErrorText` | src/btc_markets/rest_assistant.py:63-64 | `"N/A"` when `<html` occurs anywhere in the body. Otherwise the body verbatim. |
| `RestAssistant.ClassifyResponse` | src/btc_markets/rest_assistant.py:58-67 | Below 400 it returns the parsed body. At 400 or above with `return_err` it also returns the parsed body. At 400 or above without it, the call fails with method, url, status and the redacted text. A request failure happens only in that last case. |
| `RestAssistant.ErrorMessage` | src/btc_markets/rest_assistant.py:65-66 | The IOError message starts with "Error executing request " and the method name; it ends with ". HTTP status is ", the decimal status, ". Error: " and the reported error text. |
| `RestAssistant.BuiltFromUnique` | src/btc_markets/rest_assistant.py:38-54 | The properties `BuildRequest` promises determine the request completely. |
| `RestAssistant.ExecuteRequest` | src/btc_markets/rest_assistant.py:38-67 | The result is the classification of the transport's reply to the built request after authentication. A request with `BuildRequest`'s properties always exists, and the result holds for it. |
| `ClientWrapper.UsdPriceFor` | src/btc_markets/btc_markets_client_wrapper.py:17-25 | `"AUD"` gives 1. Any other asset gives the ticker price of `asset-AUD`, or fails when there is none. |
| `ClientWrapper.AudPriceIgnoresClient` | src/btc_markets/btc_markets_client_wrapper.py:17-20 | The AUD price is 1 whatever the client would answer. |
| `ClientWrapper.GetAssetBalance` | src/btc_markets/btc_markets_client_wrapper.py:38-45 | Returns the balance of the first entry whose assetName is the asset. With no such entry it returns 0.0, not a failure. |
| `ClientWrapper.SymbolInfo` | src/btc_markets/btc_markets_client_wrapper.py:56-63 | Fails iff no entry has the marketId. Otherwise it returns (base, quote) of the first entry that has it. |
| `ClientWrapper.CanonicalSide` | src/btc_markets/btc_markets_client_wrapper.py:125-126 | Ask becomes sell and Bid becomes buy. Any other token is unchanged. The result is buy or sell iff the token was Ask, Bid, buy or sell. |
| `ClientWrapper.CanonicalSideIdempotent` | src/btc_markets/btc_markets_client_wrapper.py:125-126 | Mapping a side twice gives the same as mapping it once. |
| `ClientWrapper.Kept` | src/btc_markets/btc_markets_client_wrapper.py:91 | Every kept row has timestamp at most the end date. |
| `ClientWrapper.KeptExactly` | src/btc_markets/btc_markets_client_wrapper.py:91 | Each row at or before the end date is kept as often as it was fetched. No other row is kept. |
| `ClientWrapper.SortIsDescending` | src/btc_markets/btc_markets_client_wrapper.py:91-93 | The sort orders rows by timestamp, latest first. |
| `ClientWrapper.SortIsPermutation` | src/btc_markets/btc_markets_client_wrapper.py:91-93 | The sort returns a permutation of its input. |
| `ClientWrapper.FormattedIsNormalized` | src/btc_markets/btc_markets_client_wrapper.py:104-148 | The table steps on one row equal the per-record normalisation `Normalize`. Those steps are date_time, the renames amount→qty, fee→commission, valueInQuoteAsset→commissionAssetUsdPrice, quoteQty = 1, commissionAsset = AUD, the id index, the side mapping and the projection. |
| `ClientWrapper.FormatData` | src/btc_markets/btc_markets_client_wrapper.py:124-148 | The two masked side updates followed by the column selection. Each row keeps its index and values, gets its side canonicalised, and is projected onto the eight columns in order. |
| `ClientWrapper.TradeTable` | src/btc_markets/btc_markets_client_wrapper.py:104-122 | The frame built from the sorted rows is, row by row, `Normalize` of each row. |
| `ClientWrapper.GetTrades` | src/btc_markets/btc_markets_client_wrapper.py:65-122 | Fails with NoTradesFound iff start > end, the fetch failed, or no fetched row is at or before the end date. When start > end the fetch outcome is never used. It pauses 61 s iff the fetch was tried and rate-limited (code -1003). On success it returns exactly the fetched rows at or before the end date, as a permutation, sorted latest first and normalised, with quoteQty 1 and commissionAsset AUD. |

## Left out

- HMAC-SHA512 and base64 are not modelled: the signature is an uninterpreted function of (secret, payload). A secret that is not valid base64 is therefore not modelled either.
- The clock, `time.time()` and the float `* 1e3` are not modelled: the nonce is an input, and `end_date` is an input too.
- `end_date`'s default `round(time.time() * 1000)` is evaluated once, when `get_trades` is defined, not at each call; the model, which always takes `end_date` as an input, does not capture that stale default.
- The async dispatch, `wait_for` and its timeout are not modelled: the connection is a function from request to reply.
- `BaseRestApi._request` is not part of this model. It is the code that sends `get_my_trades`'s request, so `get_my_trades` ends with the request description it hands over. Nothing in the modelled files calls `check_response_data`; the model does not assume which exception a failed trade fetch raises.
- The HTTP library output is taken as given: `.json()`, `.text` and `.content` of a reply are its fields, and a decode failure is `None`.
- pandas and float work is not modelled. That covers `to_datetime` parsing of the wire timestamp, `to_numeric`, `astype(float64)` and the `total_seconds() * 1000` rounding. Raw trades arrive with integer-millisecond timestamps and parsed numbers, and `date_time` is kept as those milliseconds.
- Raw trades always carry the fields the wrapper reads, so the KeyErrors pandas would raise on a missing column are not modelled.
- Balance and market entries always carry `assetName`/`balance` and `marketId`/`baseAssetName`/`quoteAssetName`, with the balance already a number. The KeyError on a missing field and the ValueError of `float(...)` on a malformed balance are therefore not modelled.
- `ClientWrapper.GetTrades`: the handler reads `err.code`, and every exception without a `.code` attribute makes it raise `AttributeError` instead of carrying on. That includes the KeyError or IndexError of an empty page and the `Exception(status, text)` that `check_response_data` raises, since that one has no `.code` either. No code in the modelled files raises an exception that has `.code`. `FetchFailed(code)` stands for such an exception from the request layer. An empty page is treated like a failed fetch. The model does not reproduce the `AttributeError` in any of these cases.
- `print` and `time.sleep(61)` are side effects. The sleep is reported as the `pause` result.
- The multi-page loop and the unused `start` variable are commented-out or dead code, so only one fetch per call is modelled.
- `ClientWrapper.GetTrades`: ties between equal timestamps are left in whatever order the sort gives. pandas' default sort is not stable, so the contract promises only the order and the permutation.
- pandas also allows duplicate `id` index values; nothing here depends on them.
- Python dictionaries keep insertion order; the model uses maps, so the order of query parameters and headers is not modelled.
- Requests are values, so they cannot alias. The `deepcopy` in `call` is therefore automatic, and aliasing between the caller's request and the authenticated one is not modelled.
- `get_current_asset_balance` and `get_all_asset_balances` are price × balance float arithmetic plus frame construction, so they are not modelled.
- `get_balance`, `get_ticker`, `list_asset` and `create_instance` only pass parameters through, so they are not modelled.
- `get_path_from_url` is not modelled: nothing calls it, and calling it on an instance fails because it lacks `self` and `@staticmethod`.
- `client_base.py` (async plumbing) and `auth.py` (an interface with no behaviour) are not part of this model.
