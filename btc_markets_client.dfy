/**
 * The BTC Markets client: classification of an HTTP reply, the signed payload
 * and authentication headers of the exchange's v3 API, and the query
 * parameters of the trade-history request.
 */
module BtcMarketsClient {
  import opened Wrappers
  import opened Strings
  import opened JsonValue

  newtype byte = x: int | 0 <= x < 256

  /**
   * A reply of the HTTP library: status code, raw body, decoded text and the
   * outcome of `.json()` (None where decoding raises ValueError).
   */
  datatype HttpResponse = HttpResponse(statusCode: int, content: seq<byte>, text: string, json: Option<Json>)

  /** The second argument of a raised `Exception(code, detail)`. */
  datatype Detail = Text(text: string) | Bytes(content: seq<byte>)

  datatype ClientError =
    /** `Exception(code, detail)` raised by the client itself. */
    | Raised(code: int, detail: Detail)
    /** Python's own TypeError or AttributeError, when the decoded body is not an object. */
    | TypeFault
    /** KeyError on a dictionary lookup. */
    | KeyMissing(key: string)

  /** Python's `key in j` on a decoded value; None where Python raises TypeError. */
  function PyIn(key: string, j: Json): Option<bool>
  {
    match j
    case JObj(fields) => Some(key in fields)
    case JArr(items) => Some(JStr(key) in items)
    case JStr(s) => Some(Contains(s, key))
    case _ => None
  }

  /** check_response_data: the payload of a successful reply, or the exception it raises. */
  function CheckResponseData(resp: HttpResponse): (r: Result<Json, ClientError>)
    // any status other than 200 fails with the status and the text, whatever the body
    ensures resp.statusCode != 200 ==> r == Failure(Raised(resp.statusCode, Text(resp.text)))
    // a 200 reply whose body does not decode fails with -1 and the raw content
    ensures resp.statusCode == 200 && resp.json.None? ==> r == Failure(Raised(-1, Bytes(resp.content)))
    // code 0: the `data` member if there is one, else the whole object
    ensures resp.statusCode == 200 && resp.json.Some? && resp.json.value.JObj?
            && "code" in resp.json.value.fields && EqualsZero(resp.json.value.fields["code"]) ==>
              r == Success(if "data" in resp.json.value.fields then resp.json.value.fields["data"] else resp.json.value)
    // any other code: failure with the status and the text
    ensures resp.statusCode == 200 && resp.json.Some? && resp.json.value.JObj?
            && "code" in resp.json.value.fields && !EqualsZero(resp.json.value.fields["code"]) ==>
              r == Failure(Raised(200, Text(resp.text)))
    // an object without `code`, and any falsy value, is returned unchanged
    ensures (resp.statusCode == 200 && resp.json.Some? && resp.json.value.JObj?
             && "code" !in resp.json.value.fields) ==> r == Success(resp.json.value)
    ensures resp.statusCode == 200 && resp.json.Some? && !Truthy(resp.json.value) ==> r == Success(resp.json.value)
    // a truthy non-object: unchanged unless Python's `in` or `.get` raises on it
    ensures resp.statusCode == 200 && resp.json.Some? && Truthy(resp.json.value) && !resp.json.value.JObj? ==>
              r == if PyIn("code", resp.json.value) == Some(false) then Success(resp.json.value) else Failure(TypeFault)
    ensures r.Success? ==> resp.statusCode == 200 && resp.json.Some?
  {
    if resp.statusCode == 200 then
      match resp.json
      case None => Failure(Raised(-1, Bytes(resp.content)))
      case Some(data) =>
        if !Truthy(data) then Success(data)
        else match PyIn("code", data)
          case None => Failure(TypeFault)
          case Some(false) => Success(data)
          case Some(true) =>
            match data
            case JObj(fields) =>
              if EqualsZero(fields["code"]) then
                if "data" in fields then Success(fields["data"]) else Success(data)
              else Failure(Raised(resp.statusCode, Text(resp.text)))
            case _ => Failure(TypeFault)
    else
      Failure(Raised(resp.statusCode, Text(resp.text)))
  }

  /** The account's API key and its base64 secret. */
  datatype Credentials = Credentials(apiKey: string, secret: string)

  /**
   * HMAC-SHA512 (RFC 2104) of the payload under the base64-decoded secret,
   * base64-encoded (section 4 of RFC 4648): kept uninterpreted.
   */
  type Signer = (string, string) -> string

  /** The string _headers signs: the method, the path and the nonce, with an empty body. */
  function SignaturePayload(path: string, nonce: int): string
  {
    "GET/" + path + DecimalString(nonce) + ""
  }

  /** The payload is "GET/", then the path, then the decimal nonce, with nothing else. */
  lemma PayloadLayout(path: string, nonce: int)
    ensures |SignaturePayload(path, nonce)| == 4 + |path| + |DecimalString(nonce)|
    ensures SignaturePayload(path, nonce)[..4] == "GET/"
    ensures SignaturePayload(path, nonce)[4..4 + |path|] == path
    ensures SignaturePayload(path, nonce)[4 + |path|..] == DecimalString(nonce)
  {
    var p := SignaturePayload(path, nonce);
    assert p == "GET/" + path + DecimalString(nonce);
  }

  /** The payload splits back into its path and the nonce, read from the digits after the path. */
  lemma PayloadParts(path: string, nonce: int)
    ensures |path| + 4 <= |SignaturePayload(path, nonce)|
    ensures SignaturePayload(path, nonce)[4..4 + |path|] == path
    ensures ParseDecimal(SignaturePayload(path, nonce)[4 + |path|..]) == nonce
  {
    PayloadLayout(path, nonce);
    DecimalRoundTrip(nonce);
  }

  /** For a fixed path, two different nonces never sign the same payload. */
  lemma PayloadDistinguishesNonces(path: string, n1: int, n2: int)
    requires n1 != n2
    ensures SignaturePayload(path, n1) != SignaturePayload(path, n2)
  {
    PayloadParts(path, n1);
    PayloadParts(path, n2);
  }

  /** For a fixed nonce, two different paths never sign the same payload. */
  lemma PayloadDistinguishesPaths(p1: string, p2: string, nonce: int)
    requires p1 != p2
    ensures SignaturePayload(p1, nonce) != SignaturePayload(p2, nonce)
  {
    PayloadParts(p1, nonce);
    PayloadParts(p2, nonce);
  }

  /** Path and nonce are not separated in the payload: only each one alone is recoverable. */
  lemma PayloadJoinsPathAndNonce()
    ensures SignaturePayload("a1", 23) == SignaturePayload("a", 123)
  {
    assert DecimalString(23) == "23";
    assert DecimalString(123) == "123";
  }

  const AuthHeaderNames: set<string> :=
    {"Accept", "Accept-Charset", "Content-Type", "BM-AUTH-APIKEY", "BM-AUTH-TIMESTAMP", "BM-AUTH-SIGNATURE"}

  /** _generate_auth_headers: the fixed six-entry header map. */
  function AuthHeaders(apiKey: string, nonce: int, sig: string): (h: map<string, string>)
    ensures h.Keys == AuthHeaderNames
    ensures h["Accept"] == "application/json" && h["Accept-Charset"] == "UTF-8"
    ensures h["Content-Type"] == "application/json"
    ensures h["BM-AUTH-APIKEY"] == apiKey && h["BM-AUTH-SIGNATURE"] == sig
    ensures h["BM-AUTH-TIMESTAMP"] == DecimalString(nonce) && ParseDecimal(h["BM-AUTH-TIMESTAMP"]) == nonce
  {
    DecimalRoundTrip(nonce);
    map[
      "Accept" := "application/json",
      "Accept-Charset" := "UTF-8",
      "Content-Type" := "application/json",
      "BM-AUTH-APIKEY" := apiKey,
      "BM-AUTH-TIMESTAMP" := DecimalString(nonce),
      "BM-AUTH-SIGNATURE" := sig
    ]
  }

  /**
   * _headers: looks up the path in header_meta, signs the payload for the
   * given nonce (the clock reading) and returns the authentication headers.
   */
  function Headers(creds: Credentials, headerMeta: map<string, string>, nonce: int, sign: Signer)
    : (r: Result<map<string, string>, ClientError>)
    ensures "path" !in headerMeta <==> r == Failure(KeyMissing("path"))
    ensures r.Success? ==> r.value.Keys == AuthHeaderNames && r.value["BM-AUTH-APIKEY"] == creds.apiKey
    // the nonce carried in the timestamp header is the one that was signed, so
    // the exchange can rebuild the payload from the path and the headers alone
    ensures r.Success? ==>
              && ParseDecimal(r.value["BM-AUTH-TIMESTAMP"]) == nonce
              && r.value["BM-AUTH-SIGNATURE"] == sign(creds.secret, "GET/" + headerMeta["path"] + r.value["BM-AUTH-TIMESTAMP"])
    // every value, the three fixed ones included, is the one _generate_auth_headers sets
    ensures r.Success? ==>
              r.value == AuthHeaders(creds.apiKey, nonce, sign(creds.secret, SignaturePayload(headerMeta["path"], nonce)))
  {
    if "path" !in headerMeta then Failure(KeyMissing("path"))
    else
      var payload := SignaturePayload(headerMeta["path"], nonce);
      assert payload == "GET/" + headerMeta["path"] + DecimalString(nonce);
      Success(AuthHeaders(creds.apiKey, nonce, sign(creds.secret, payload)))
  }

  /**
   * The page size get_my_trades always asks for. The source sends the integer
   * 100; JSON numbers are reals here, so `JNum(100.0)` stands for that integer.
   */
  const TradePageLimit: real := 100.0

  /** What get_my_trades hands to the request layer. */
  datatype ClientRequest = ClientRequest(verb: string, path: string, params: map<string, Json>, headerMeta: map<string, string>)

  /**
   * get_my_trades: the query parameters start as marketId and limit and are
   * then updated with the keyword arguments. The startTime argument is not used;
   * Python cannot pass it among the keyword arguments as well.
   */
  method GetMyTrades(symbol: string, startTime: int, kwargs: map<string, Json>, tradesUrl: string)
    returns (req: ClientRequest)
    requires "startTime" !in kwargs
    ensures "startTime" !in req.params
    ensures req.verb == "GET" && req.path == tradesUrl && req.headerMeta == map["path" := tradesUrl]
    ensures req.params.Keys == {"marketId", "limit"} + kwargs.Keys
    ensures forall k :: k in kwargs ==> req.params[k] == kwargs[k]
    ensures "marketId" !in kwargs ==> req.params["marketId"] == JStr(symbol)
    ensures "limit" !in kwargs ==> req.params["limit"] == JNum(TradePageLimit)
  {
    var params := map["marketId" := JStr(symbol), "limit" := JNum(TradePageLimit)];
    if |kwargs| > 0 {
      params := params + kwargs;
    }
    var headerMeta := map["path" := tradesUrl];
    req := ClientRequest("GET", tradesUrl, params, headerMeta);
  }
}
