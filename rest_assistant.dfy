/**
 * The REST assistant: builds a request from the caller's pieces, authenticates
 * it when asked, hands it to the transport and classifies the reply by status.
 */
module RestAssistant {
  import opened Wrappers
  import opened Strings
  import opened JsonValue

  datatype RestMethod = GET | POST | PUT | DELETE

  /** `method.name` of the enumeration. */
  function MethodName(m: RestMethod): string
  {
    match m
    case GET => "GET"
    case POST => "POST"
    case PUT => "PUT"
    case DELETE => "DELETE"
  }

  /** The request value passed to the authenticator and the connection. */
  datatype RestRequest = RestRequest(
    verb: RestMethod,
    url: string,
    params: Option<map<string, Json>>,
    data: Option<string>,
    headers: map<string, string>,
    isAuthRequired: bool,
    throttlerLimitId: string)

  /** A reply of the connection: status, body text and the outcome of decoding it as JSON. */
  datatype RestResponse = RestResponse(status: int, text: string, json: Option<Json>)

  datatype RestError =
    /** The IOError raised for a status of 400 or more. */
    | RequestFailed(verb: RestMethod, url: string, status: int, errorText: string)
    /** The body handed to `.json()` does not decode. */
    | MalformedJson(status: int)

  /** AuthBase.rest_authenticate, supplied by the caller. */
  type Authenticator = RestRequest -> RestRequest

  /** The connection: sends a request and returns the reply. */
  type Transport = RestRequest -> RestResponse

  /** json.dumps. */
  type Serializer = Json -> string

  /** The Content-Type the assistant uses unless the caller supplies one. */
  function DefaultContentType(m: RestMethod): (ct: string)
    ensures ct == "application/x-www-form-urlencoded" <==> m == GET
    ensures ct == "application/json" <==> m != GET
  {
    if m != GET then "application/json" else "application/x-www-form-urlencoded"
  }

  /**
   * What execute_request promises about the request it builds, before
   * authentication. The body `data` is a decoded value; Python's None is JNull.
   */
  ghost predicate BuiltFrom(
    request: RestRequest, url: string, throttlerLimitId: string, params: Option<map<string, Json>>,
    data: Json, m: RestMethod, isAuthRequired: bool, headers: Option<map<string, string>>, dumps: Serializer)
  {
    var caller := if headers.Some? then headers.value else map[];
    && request.verb == m && request.url == url && request.params == params
    && request.isAuthRequired == isAuthRequired && request.throttlerLimitId == throttlerLimitId
    // every caller header, Content-Type included, is kept with the caller's value
    && request.headers.Keys == {"Content-Type"} + caller.Keys
    && (forall k :: k in caller ==> request.headers[k] == caller[k])
    && ("Content-Type" !in caller ==> request.headers["Content-Type"] == DefaultContentType(m))
    // the body is serialised exactly when there is one
    && (request.data.None? <==> data == JNull)
    && (data != JNull ==> request.data == Some(dumps(data)))
  }

  /** The properties of a built request leave no freedom: they determine it. */
  lemma BuiltFromUnique(
    r1: RestRequest, r2: RestRequest, url: string, throttlerLimitId: string, params: Option<map<string, Json>>,
    data: Json, m: RestMethod, isAuthRequired: bool, headers: Option<map<string, string>>, dumps: Serializer)
    requires BuiltFrom(r1, url, throttlerLimitId, params, data, m, isAuthRequired, headers, dumps)
    requires BuiltFrom(r2, url, throttlerLimitId, params, data, m, isAuthRequired, headers, dumps)
    ensures r1 == r2
  {
    var caller := if headers.Some? then headers.value else map[];
    forall k | k in r1.headers
      ensures r1.headers[k] == r2.headers[k]
    {
      if k !in caller {
        assert k == "Content-Type";
      }
    }
    assert r1.headers == r2.headers;
  }

  /** The request assembly of execute_request: header merge and body serialisation. */
  method BuildRequest(
    url: string, throttlerLimitId: string, params: Option<map<string, Json>>, data: Json,
    m: RestMethod, isAuthRequired: bool, headers: Option<map<string, string>>, dumps: Serializer)
    returns (request: RestRequest)
    ensures BuiltFrom(request, url, throttlerLimitId, params, data, m, isAuthRequired, headers, dumps)
  {
    var callerHeaders := if headers.Some? then headers.value else map[];
    var localHeaders := map["Content-Type" := DefaultContentType(m)];
    localHeaders := localHeaders + callerHeaders;
    var body := if data != JNull then Some(dumps(data)) else None;
    request := RestRequest(m, url, params, body, localHeaders, isAuthRequired, throttlerLimitId);
  }

  /** _authenticate: the authenticator applies iff there is one and the request asks for it. */
  function Authenticate(auth: Option<Authenticator>, request: RestRequest): (r: RestRequest)
    ensures auth.Some? && request.isAuthRequired ==> r == auth.value(request)
    ensures auth.None? || !request.isAuthRequired ==> r == request
  {
    if auth.Some? && request.isAuthRequired then auth.value(request) else request
  }

  /**
   * call: authenticates a copy of the request and sends it. Requests are
   * values here, so the caller's request cannot be changed by the authenticator.
   */
  method Call(auth: Option<Authenticator>, transport: Transport, request: RestRequest)
    returns (response: RestResponse)
    ensures response == transport(Authenticate(auth, request))
  {
    var copy := request;
    copy := Authenticate(auth, copy);
    response := transport(copy);
  }

  /** `await response.json()`. */
  function ParsedBody(response: RestResponse): (r: Result<Json, RestError>)
    ensures r.Success? <==> response.json.Some?
    ensures r.Success? ==> r.value == response.json.value
    ensures r.Failure? ==> r.error == MalformedJson(response.status)
  {
    match response.json
    case Some(j) => Success(j)
    case None => Failure(MalformedJson(response.status))
  }

  /** The text execute_request reports for a failed reply: HTML pages are replaced by "N/A". */
  function ErrorText(body: string): (t: string)
    ensures (exists i :: OccursAt(body, "<html", i)) ==> t == "N/A"
    ensures (forall i :: !OccursAt(body, "<html", i)) ==> t == body
  {
    ContainsIffOccurs(body, "<html");
    if Contains(body, "<html") then "N/A" else body
  }

  /** The status classification of execute_request. */
  function ClassifyResponse(m: RestMethod, url: string, returnErr: bool, response: RestResponse)
    : (r: Result<Json, RestError>)
    ensures response.status < 400 ==> r == ParsedBody(response)
    ensures response.status >= 400 && returnErr ==> r == ParsedBody(response)
    ensures response.status >= 400 && !returnErr ==>
              r == Failure(RequestFailed(m, url, response.status, ErrorText(response.text)))
    ensures r.Failure? && r.error.RequestFailed? ==> response.status >= 400 && !returnErr
  {
    if 400 <= response.status then
      if returnErr then ParsedBody(response)
      else Failure(RequestFailed(m, url, response.status, ErrorText(response.text)))
    else ParsedBody(response)
  }

  /** The message of the raised IOError; it ends with the reported error text. */
  function ErrorMessage(e: RestError): (msg: string)
    requires e.RequestFailed?
    ensures var prefix := "Error executing request " + MethodName(e.verb) + " ";
            |prefix| <= |msg| && msg[..|prefix|] == prefix
    ensures var status := ". HTTP status is " + DecimalString(e.status) + ". Error: ";
            |status| + |e.errorText| <= |msg| && msg[|msg| - |e.errorText| - |status|..|msg| - |e.errorText|] == status
    ensures |e.errorText| <= |msg| && msg[|msg| - |e.errorText|..] == e.errorText
  {
    "Error executing request " + MethodName(e.verb) + " " + e.url
    + ". HTTP status is " + DecimalString(e.status) + ". Error: " + e.errorText
  }

  /**
   * execute_request: the result is the classification of the reply the
   * transport gives to the built request, once authenticated.
   */
  method ExecuteRequest(
    auth: Option<Authenticator>, transport: Transport, dumps: Serializer,
    url: string, throttlerLimitId: string, params: Option<map<string, Json>>, data: Json,
    m: RestMethod, isAuthRequired: bool, returnErr: bool, headers: Option<map<string, string>>)
    returns (result: Result<Json, RestError>)
    ensures exists request :: BuiltFrom(request, url, throttlerLimitId, params, data, m, isAuthRequired, headers, dumps)
    ensures forall request :: BuiltFrom(request, url, throttlerLimitId, params, data, m, isAuthRequired, headers, dumps) ==>
              result == ClassifyResponse(m, url, returnErr, transport(Authenticate(auth, request)))
  {
    var built := BuildRequest(url, throttlerLimitId, params, data, m, isAuthRequired, headers, dumps);
    assert BuiltFrom(built, url, throttlerLimitId, params, data, m, isAuthRequired, headers, dumps);
    var response := Call(auth, transport, built);
    result := ClassifyResponse(m, url, returnErr, response);
    forall request | BuiltFrom(request, url, throttlerLimitId, params, data, m, isAuthRequired, headers, dumps)
      ensures result == ClassifyResponse(m, url, returnErr, transport(Authenticate(auth, request)))
    {
      BuiltFromUnique(request, built, url, throttlerLimitId, params, data, m, isAuthRequired, headers, dumps);
    }
  }
}
