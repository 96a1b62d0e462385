/**
 * What the SDK sees of the HTTP client: responses, the `Response|false` that
 * `request()` hands back, and the request it asks the client to send.
 * The client itself is a function `send` from an outgoing request to what the
 * transport produced; it is a parameter of every operation that talks to the network.
 */
module Http {
  import opened Wrappers
  import opened Php

  /** A PSR-7 response; `json` is what `json_decode($body, true)` yields for the body. */
  datatype Response = Response(status: int, headers: seq<(string, string)>, body: string, json: Value)

  /** `getHeader($name)`: every value of the headers whose name matches, ignoring ASCII case. */
  function Header(r: Response, name: string): seq<string> {
    HeaderValues(r.headers, name)
  }

  function HeaderValues(hs: seq<(string, string)>, name: string): (vs: seq<string>)
    ensures |vs| <= |hs|
    ensures vs == [] <==> forall j :: 0 <= j < |hs| ==> !EqualsIgnoreCase(hs[j].0, name)
  {
    if hs == [] then []
    else if EqualsIgnoreCase(hs[0].0, name) then [hs[0].1] + HeaderValues(hs[1..], name)
    else HeaderValues(hs[1..], name)
  }

  /** The status codes both entity base classes flag as errors: 404, 401 and 500. */
  predicate IsErrorStatus(code: int) {
    code == 404 || code == 401 || code == 500
  }

  /** `empty(trim((string)$response->getBody()))`: the body is "" or "0" once PHP's default `trim` is applied. */
  predicate BlankBody(resp: Response) {
    IsEmptyString(Trim(resp.body, Whitespace))
  }

  /** What a request method returns: a response, or `false` when there was none. */
  datatype Received = NoResponse | Got(response: Response)

  /** What the transport does with a request: answers it, or throws a RequestException. */
  datatype Transport = Answered(response: Response) | RequestException(attached: Option<Response>)

  /**
   * The `try { send } catch (RequestException $e)` of both services: a response
   * attached to the exception is used, and an exception without one yields false.
   */
  function Receive(t: Transport): (r: Received)
    ensures r.NoResponse? <==> t.RequestException? && t.attached.None?
    ensures t.Answered? ==> r == Got(t.response)
    ensures t.RequestException? && t.attached.Some? ==> r == Got(t.attached.value)
  {
    match t
    case Answered(resp) => Got(resp)
    case RequestException(None) => NoResponse
    case RequestException(Some(resp)) => Got(resp)
  }

  /** A request body: a string given by the caller, or `json_encode` of a PHP array. */
  datatype Payload = Text(s: string) | JsonOf(v: Value)

  /** `empty($rawData)`; an encoded JSON document is never "" or "0". */
  predicate PayloadIsEmpty(p: Payload) {
    p.Text? && IsEmptyString(p.s)
  }

  /** An outgoing request: an API call relative to the base URI, or a form POST. */
  datatype Outgoing =
    | Send(verb: string, path: string, query: seq<(Key, Value)>, body: Option<Payload>)
    | PostForm(url: string, form: Value)

  /** How the HTTP client was configured. */
  datatype ClientOptions = ClientOptions(
    baseUri: string,
    timeout: Value,
    allowRedirects: bool,
    auth: (string, string),
    headers: seq<(string, string)>)

  const SdkVersion := "0.1.1"
  const UserAgent := "chargify-sdk-php/" + SdkVersion + " (https://github.com/chargely/chargify-sdk-php)"

  const NoRawData := BadMethodCall("You must send raw data in a POST or PUT request")

  /**
   * The path `request()` asks for: `ltrim($path, '/')` followed by `suffix`. Only
   * leading slashes are dropped, so the result is relative to the base URI.
   */
  function RequestPath(path: string, suffix: string): (p: string)
    requires suffix == [] || suffix[0] != '/'
    ensures p == [] || p[0] != '/'
    ensures |suffix| <= |p| && p[|p| - |suffix|..] == suffix
    ensures var stem := p[..|p| - |suffix|];
            |stem| <= |path| && path[|path| - |stem|..] == stem &&
            forall j :: 0 <= j < |path| - |stem| ==> path[j] == '/'
  {
    var trimmed := TrimLeft(path, {'/'});
    var p := trimmed + suffix;
    assert p[..|p| - |suffix|] == trimmed && p[|p| - |suffix|..] == suffix;
    p
  }

  /**
   * The request both services' `request()` sends: the upper-cased method, the
   * relative path, the parameters as the query, and a body only when the raw data
   * is not PHP-empty. POST and PUT without raw data throw.
   */
  function Prepare(path: string, verb: string, rawData: Option<Payload>, params: seq<(Key, Value)>, suffix: string)
    : (r: Result<Outgoing, Exception>)
    requires suffix == [] || suffix[0] != '/'
    ensures r.Failure? <==> (Upper(verb) == "POST" || Upper(verb) == "PUT") && rawData.None?
    ensures r.Failure? ==> r.error.BadMethodCall?
    ensures r.Success? ==> r.value.Send? && r.value.verb == Upper(verb) && r.value.query == params
    ensures r.Success? ==> r.value.path == RequestPath(path, suffix)
    ensures r.Success? ==> (r.value.body.Some? <==> rawData.Some? && !PayloadIsEmpty(rawData.value))
    ensures r.Success? && r.value.body.Some? ==> r.value.body == rawData
  {
    var upper := Upper(verb);
    if (upper == "POST" || upper == "PUT") && rawData.None? then
      Failure(NoRawData)
    else
      var body := if rawData.Some? && !PayloadIsEmpty(rawData.value) then rawData else None;
      Success(Send(upper, RequestPath(path, suffix), params, body))
  }

  /** What `request()` returns for a request that was prepared, or the exception it throws. */
  function Exchange(prepared: Result<Outgoing, Exception>, send: Outgoing -> Transport): (r: Result<Received, Exception>)
    ensures prepared.Failure? ==> r == Failure(prepared.error)
    ensures prepared.Success? ==> r == Success(Receive(send(prepared.value)))
  {
    match prepared
    case Failure(e) => Failure(e)
    case Success(req) => Success(Receive(send(req)))
  }
}
