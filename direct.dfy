/**
 * Chargify Direct: a signing context over a data array (`Direct`) and the
 * credentials probe that posts a signed sign-up form (`AuthRequest`). They refer
 * to each other, so they share this module.
 */
module Direct {
  import opened Wrappers
  import opened Php
  import opened LooseCompare
  import opened Http
  import opened Crypto
  import opened QueryString
  import opened ServiceV2

  const NonceBits := 256
  const RedirectKey := Name("redirect_uri")
  const AlreadySigned := BadMethodCall("The signature for this request has already been generated.")
  const NoBodyOnFalse := Error("Call to a member function getBody() on bool")
  const LocalRedirect := "http://localhost"

  // ---------------------------------------------------------------------------
  // Nonce
  // ---------------------------------------------------------------------------

  /** The string `generateNonce` hashes: one character per random byte, `ceil(256 / 8)` of them. */
  function NonceSeed(draw: nat -> bv8): (s: string)
    ensures |s| == NonceBits / 8
    ensures forall j :: 0 <= j < |s| ==> s[j] as int == draw(j) as int
  {
    seq(NonceBits / 8, j requires 0 <= j => (draw(j) as int) as char)
  }

  /**
   * `generateNonce()`: 32 draws of `mt_rand(0, 255)`, the `j`-th of which is
   * `draw(j)`, appended as characters and hashed with SHA-1.
   */
  method GenerateNonce(crypto: Crypto, draw: nat -> bv8) returns (nonce: string)
    ensures nonce == crypto.sha1Hex(NonceSeed(draw))
    ensures Sound(crypto) ==> IsDigest(nonce)
  {
    var bytes := (NonceBits + 7) / 8;
    var s := "";
    var i := 0;
    while i < bytes
      invariant 0 <= i <= bytes == |NonceSeed(draw)|
      invariant s == NonceSeed(draw)[..i]
    {
      s := s + [(draw(i) as int) as char];
      i := i + 1;
    }
    assert s == NonceSeed(draw);
    nonce := crypto.sha1Hex(s);
  }

  // ---------------------------------------------------------------------------
  // Merging the redirect into the data
  // ---------------------------------------------------------------------------

  /** What `array_merge_recursive` makes of an existing value before adding to it. */
  function AsList(v: Value): (es: seq<(Key, Value)>)
    ensures !v.Arr? ==> es == [(Index(0), v)]
  {
    if v.Arr? then v.entries else [(Index(0), v)]
  }

  /**
   * `array_merge_recursive($data, ['redirect_uri' => $url])`: integer keys are
   * renumbered from 0; a new key is appended; an existing value is turned into a
   * list and the URL is appended to it.
   */
  function MergeRedirectUri(data: seq<(Key, Value)>, url: string): (r: seq<(Key, Value)>)
    ensures Get(r, RedirectKey).Some?
    ensures forall name :: name != "redirect_uri" ==> Get(r, Name(name)) == Get(data, Name(name))
    ensures Get(data, RedirectKey).None? ==> Get(r, RedirectKey) == Some(Str(url))
  {
    var dest := Renumber(data, 0);
    RenumberKeepsNames(data, 0, "redirect_uri");
    forall name ensures Get(dest, Name(name)) == Get(data, Name(name)) {
      RenumberKeepsNames(data, 0, name);
    }
    var merged := match Get(dest, RedirectKey)
      case None => Str(url)
      case Some(v) => Arr(Push(AsList(v), Str(url)));
    Put(dest, RedirectKey, merged)
  }

  /** `mergeRedirect()`: nothing happens while the redirect is null or PHP-empty. */
  function MergedData(data: seq<(Key, Value)>, redirect: Option<string>): (r: seq<(Key, Value)>)
    ensures redirect.None? || IsEmptyString(redirect.value) ==> r == data
    ensures redirect.Some? && !IsEmptyString(redirect.value) ==> r == MergeRedirectUri(data, redirect.value)
  {
    if redirect.None? || IsEmptyString(redirect.value) then data else MergeRedirectUri(data, redirect.value)
  }

  /** Data with string keys and no redirect yet gets the redirect appended as the last entry. */
  lemma MergeAppendsRedirect(data: seq<(Key, Value)>, url: string)
    requires !IsEmptyString(url)
    requires forall j :: 0 <= j < |data| ==> data[j].0.Name?
    requires Get(data, RedirectKey).None?
    ensures MergedData(data, Some(url)) == data + [(RedirectKey, Str(url))]
  {
    RenumberNamesOnly(data, 0);
  }

  /** Merging the redirect leaves every other string key's value as it was. */
  lemma MergeKeepsOtherKeys(data: seq<(Key, Value)>, redirect: Option<string>, name: string)
    requires name != "redirect_uri"
    ensures Get(MergedData(data, redirect), Name(name)) == Get(data, Name(name))
  {
  }

  /**
   * Setting two redirects turns `redirect_uri` into a list of both, because the
   * second merge finds the first URL already there.
   */
  lemma SecondRedirectMakesList(url1: string, url2: string)
    requires !IsEmptyString(url1) && !IsEmptyString(url2)
    ensures MergedData(MergedData([], Some(url1)), Some(url2))
            == [(RedirectKey, Arr([(Index(0), Str(url1)), (Index(1), Str(url2))]))]
  {
    var once := MergedData([], Some(url1));
    MergeAppendsRedirect([], url1);
    assert once == [(RedirectKey, Str(url1))];
    var dest := Renumber(once, 0);
    assert dest == once;
    assert Find(dest, RedirectKey) == Some(0);
    var list: seq<(Key, Value)> := [(Index(0), Str(url1))];
    assert NextIndex(list) == 1;
    var merged := Arr(Push(list, Str(url2)));
    assert merged == Arr([(Index(0), Str(url1)), (Index(1), Str(url2))]);
    var twice := Put(dest, RedirectKey, merged);
    assert twice == MergedData(once, Some(url2));
    assert |twice| == 1;
    var i := Find(twice, RedirectKey).value;
    assert i == 0 && twice[0] == (RedirectKey, merged);
  }

  /** Integer keys of the data are renumbered from 0 by the merge. */
  lemma MergeRenumbersIndexKeys(url: string)
    requires !IsEmptyString(url)
    ensures MergedData([(Index(5), Str("x"))], Some(url)) == [(Index(0), Str("x")), (RedirectKey, Str(url))]
  {
    var dest: seq<(Key, Value)> := [(Index(0), Str("x"))];
    assert Renumber([(Index(5), Str("x"))], 0) == dest;
    assert Find(dest, RedirectKey) == None;
  }

  // ---------------------------------------------------------------------------
  // Form actions and hidden fields
  // ---------------------------------------------------------------------------

  function ApiIdField(v: string): string {
    "<input type=\"hidden\" name=\"secure[api_id]\"    value=\"" + v + "\" />"
  }

  function TimestampField(v: string): string {
    "<input type=\"hidden\" name=\"secure[timestamp]\" value=\"" + v + "\" />"
  }

  function NonceField(v: string): string {
    "<input type=\"hidden\" name=\"secure[nonce]\"     value=\"" + v + "\" />"
  }

  function DataField(v: string): string {
    "<input type=\"hidden\" name=\"secure[data]\"      value=\"" + v + "\" />"
  }

  function SignatureField(v: string): string {
    "<input type=\"hidden\" name=\"secure[signature]\" value=\"" + v + "\" />"
  }

  /** The html of `getHiddenFields()`: the five inputs, each followed by a newline. */
  function HiddenFields(apiId: string, timestamp: string, nonce: string, data: string, signature: string): string {
    ApiIdField(apiId) + "\n" + TimestampField(timestamp) + "\n" + NonceField(nonce) + "\n"
    + DataField(data) + "\n" + SignatureField(signature) + "\n"
  }

  /** The sign-up form `AuthRequest::request()` posts; the signature comes before the data. */
  function SignupForm(apiId: string, timestamp: int, nonce: string, signature: string, data: string): Value {
    Arr([(Name("secure"), Arr([
      (Name("api_id"), Str(apiId)),
      (Name("timestamp"), Int(timestamp)),
      (Name("nonce"), Str(nonce)),
      (Name("signature"), Str(signature)),
      (Name("data"), Str(data))]))])
  }

  // ---------------------------------------------------------------------------
  // The credentials probe's verdict
  // ---------------------------------------------------------------------------

  /**
   * The checks of `test()` on a response: the credentials are good unless the
   * trimmed body is "Incorrect signature" in any case, there is no Location
   * header, or the status is 200.
   */
  function Verdict(resp: Response): (ok: bool)
    ensures ok <==> && resp.status != 200
                    && Header(resp, "Location") != []
                    && !EqualsIgnoreCase("Incorrect signature", Trim(resp.body, Whitespace))
  {
    var bodyIsInvalid := EqualsIgnoreCase("Incorrect signature", Trim(resp.body, Whitespace));
    var locationIsInvalid := Header(resp, "Location") == [];
    var statusCodeIsInvalid := resp.status == 200;
    !(bodyIsInvalid || locationIsInvalid || statusCodeIsInvalid)
  }

  /** `test()` as written: a missing response (false) makes it call a method on false. */
  function TestOutcome(received: Received): (r: Result<bool, Exception>)
    ensures received.NoResponse? <==> r.Failure?
    ensures received.Got? ==> r == Success(Verdict(received.response))
  {
    match received
    case NoResponse => Failure(NoBodyOnFalse)
    case Got(resp) => Success(Verdict(resp))
  }

  /** `test()` as intended: a missing response is a failed probe. */
  function ProbeResult(received: Received): (ok: bool)
    ensures received.NoResponse? ==> !ok
    ensures ok ==> received.Got? && received.response.status != 200
                   && Header(received.response, "Location") != []
  {
    match received
    case NoResponse => false
    case Got(resp) => Verdict(resp)
  }

  /** Wherever `test()` as written returns, the intended probe agrees with it. */
  lemma ProbeAgreesWithTestWhenAnswered(received: Received)
    ensures TestOutcome(received).Success? ==> TestOutcome(received).value == ProbeResult(received)
    ensures TestOutcome(received).Failure? ==> !ProbeResult(received)
  {
  }

  /** A transport failure makes `test()` as written throw instead of answering false. */
  lemma TransportFailureThrows()
    ensures TestOutcome(NoResponse) == Failure(NoBodyOnFalse)
    ensures !ProbeResult(NoResponse)
  {
  }

  /** A redirect with a Location header accepts the credentials. */
  lemma RedirectAccepts(location: string)
    ensures Verdict(Response(302, [("Location", location)], "", Null))
  {
    assert EqualsIgnoreCase("Location", "Location");
    assert Header(Response(302, [("Location", location)], "", Null), "Location") == [location];
    assert Trim("", Whitespace) == "";
    assert Lower("Incorrect signature")[0] == 'i';
  }

  /** A 200 without Location whose body is "Incorrect signature" rejects them. */
  lemma IncorrectSignatureRejects()
    ensures !Verdict(Response(200, [], "Incorrect signature", Null))
  {
  }

  /** The body check ignores surrounding whitespace and letter case. */
  lemma IncorrectSignatureAnyCaseRejects(resp: Response)
    requires Lower(Trim(resp.body, Whitespace)) == Lower("Incorrect signature")
    ensures !Verdict(resp)
  {
  }

  // ---------------------------------------------------------------------------
  // The signing context
  // ---------------------------------------------------------------------------

  class Direct {
    const service: ChargifyV2
    const crypto: Crypto
    const timeStamp: int
    const nonce: string
    var authTestUtility: AuthRequest?
    var data: seq<(Key, Value)>
    /** None while `$redirect` is still null. */
    var redirect: Option<string>
    /** The cached `$requestSignature`; None while it is null. */
    var requestSignature: Option<string>

    /** The probe points back at this context, and a cached signature signs the current data. */
    ghost predicate Valid()
      reads this
    {
      && authTestUtility != null
      && authTestUtility.direct == this
      && (requestSignature.Some? ==> requestSignature.value == SignatureOf(data))
    }

    /** The string `getRequestSignature()` signs: api id, decimal timestamp, nonce and the `&` data string. */
    function SignedMessage(d: seq<(Key, Value)>): string
    {
      service.apiId + IntToDecimal(timeStamp) + nonce + DataString(d, "&")
    }

    /** `getDataString()`: the fixed-up pairs of the data joined by `&`, with no "%5B" or "%5D" left. */
    function GetDataString(): (s: string)
      reads this
      ensures s == Join(FixupEach(Pairs(data)), "&")
      ensures Free(s, "%5B") && Free(s, "%5D")
    {
      DataStringIsJoinOfPairs(data, "&");
      FixupRemovesEscapedBrackets(Join(Pairs(data), "&"));
      DataString(data, "&")
    }

    /** `getDataStringEncoded()`: the same pairs in the same order, joined by `&amp;`. */
    function GetDataStringEncoded(): (s: string)
      reads this
      ensures s == Join(FixupEach(Pairs(data)), "&amp;")
      ensures Free(s, "%5B") && Free(s, "%5D")
    {
      DataStringIsJoinOfPairs(data, "&amp;");
      FixupRemovesEscapedBrackets(Join(Pairs(data), "&amp;"));
      DataString(data, "&amp;")
    }

    function SignatureOf(d: seq<(Key, Value)>): (s: string)
      ensures Sound(crypto) ==> IsDigest(s)
    {
      crypto.hmacSha1Hex(service.apiSecret, SignedMessage(d))
    }

    /** `new Direct($service)`: fresh nonce from `draw`, timestamp `now`, empty data. */
    constructor (service: ChargifyV2, crypto: Crypto, now: int, draw: nat -> bv8)
      ensures Valid() && fresh(authTestUtility)
      ensures this.service == service && this.crypto == crypto
      ensures nonce == crypto.sha1Hex(NonceSeed(draw)) && timeStamp == now
      ensures Sound(crypto) ==> IsDigest(nonce)
      ensures data == [] && redirect == None && requestSignature == None
      ensures authTestUtility.lastResponse == None
    {
      this.service := service;
      this.crypto := crypto;
      var n := GenerateNonce(crypto, draw);
      nonce := n;
      timeStamp := now;
      data := [];
      redirect := None;
      requestSignature := None;
      new;
      authTestUtility := new AuthRequest(this);
    }

    /** `setData($data)`: refused once the signature exists; otherwise the data with the redirect merged in. */
    method SetData(d: seq<(Key, Value)>) returns (r: Outcome<Exception>)
      requires Valid()
      modifies this`data
      ensures Valid()
      ensures r.Fail? <==> old(requestSignature).Some?
      ensures r.Fail? ==> r.error == AlreadySigned && data == old(data)
      ensures r.Pass? ==> data == MergedData(d, redirect)
    {
      if requestSignature.Some? {
        return Fail(AlreadySigned);
      }
      data := d;
      MergeRedirect();
      r := Pass;
    }

    /**
     * `setRedirect($url)`: refused once the signature exists; otherwise stored and
     * merged into the data. A null URL clears the redirect and merges nothing.
     */
    method SetRedirect(url: Option<string>) returns (r: Outcome<Exception>)
      requires Valid()
      modifies this`data, this`redirect
      ensures Valid()
      ensures r.Fail? <==> old(requestSignature).Some?
      ensures r.Fail? ==> r.error == AlreadySigned && data == old(data) && redirect == old(redirect)
      ensures r.Pass? ==> redirect == url && data == MergedData(old(data), url)
    {
      if requestSignature.Some? {
        return Fail(AlreadySigned);
      }
      redirect := url;
      MergeRedirect();
      r := Pass;
    }

    /** `mergeRedirect()`. */
    method MergeRedirect()
      requires Valid() && requestSignature.None?
      modifies this`data
      ensures Valid()
      ensures data == MergedData(old(data), redirect)
    {
      if redirect.Some? && !IsEmptyString(redirect.value) {
        data := MergeRedirectUri(data, redirect.value);
      }
    }

    /** `getRedirect(): string`, which throws a TypeError while the redirect is still null. */
    function GetRedirect(): (r: Result<string, Exception>)
      reads this
      ensures r.Failure? <==> redirect.None?
      ensures r.Failure? ==> r.error.TypeError?
      ensures r.Success? ==> r.value == redirect.value
    {
      match redirect
      case None => Failure(TypeError("Direct::getRedirect(): Return value must be of type string, null returned"))
      case Some(url) => Success(url)
    }

    /**
     * `getRequestSignature()`: computed on first use and cached, after which the
     * data can no longer change, so the cache keeps signing the current data.
     */
    method GetRequestSignature() returns (s: string)
      requires Valid()
      modifies this`requestSignature
      ensures Valid()
      ensures s == SignatureOf(data) && requestSignature == Some(s)
      ensures old(requestSignature).Some? ==> s == old(requestSignature).value
      ensures Sound(crypto) ==> IsDigest(s)
    {
      if requestSignature.None? || IsEmptyString(requestSignature.value) {
        requestSignature := Some(crypto.hmacSha1Hex(service.apiSecret, SignedMessage(data)));
      }
      s := requestSignature.value;
    }

    /** `getResponseSignature(...)`: HMAC-SHA1 with the API secret over the six fields, concatenated. */
    function GetResponseSignature(apiId: string, timestamp: string, nonce: string, statusCode: string,
                                  resultCode: string, callId: string): (s: string)
      ensures s == crypto.hmacSha1Hex(service.apiSecret, apiId + timestamp + nonce + statusCode + resultCode + callId)
      ensures Sound(crypto) ==> IsDigest(s)
    {
      crypto.hmacSha1Hex(service.apiSecret, apiId + timestamp + nonce + statusCode + resultCode + callId)
    }

    /**
     * `isValidResponseSignature(...)` as written, comparing with PHP's loose `==`:
     * a candidate that is not a numeric string must match exactly.
     */
    function IsValidResponseSignatureLoose(signature: string, apiId: string, timestamp: string, nonce: string,
                                           statusCode: string, resultCode: string, callId: string): (ok: bool)
      ensures !IsNumeric(signature) ==>
                (ok <==> signature == GetResponseSignature(apiId, timestamp, nonce, statusCode, resultCode, callId))
      ensures ok && Sound(crypto) && !IsNumeric(signature) ==> IsDigest(signature)
    {
      LooseEquals(signature, GetResponseSignature(apiId, timestamp, nonce, statusCode, resultCode, callId))
    }

    /** `isValidResponseSignature(...)` as intended: the signature is exactly the expected one. */
    function IsValidResponseSignature(signature: string, apiId: string, timestamp: string, nonce: string,
                                      statusCode: string, resultCode: string, callId: string): (ok: bool)
      ensures ok && Sound(crypto) ==> IsDigest(signature)
    {
      signature == GetResponseSignature(apiId, timestamp, nonce, statusCode, resultCode, callId)
    }

    /** `getSignupAction()`: the base URL without surrounding slashes, then "/signups". */
    function SignupAction(): (url: string)
      ensures service.baseUrl == BaseUrl ==> url == TrimmedBaseUrl + "/signups"
    {
      if service.baseUrl == BaseUrl then
        SignupActionOfBaseUrl(service.baseUrl);
        SignupActionAt(service.baseUrl)
      else
        SignupActionAt(service.baseUrl)
    }

    /** `getCardUpdateAction($id)`. */
    function CardUpdateAction(subscriptionId: int): (url: string)
      ensures service.baseUrl == BaseUrl ==>
                url == TrimmedBaseUrl + "/subscriptions/" + IntToDecimal(subscriptionId) + "/card_update"
    {
      if service.baseUrl == BaseUrl then
        CardUpdateActionOfBaseUrl(service.baseUrl, subscriptionId);
        CardUpdateActionAt(service.baseUrl, subscriptionId)
      else
        CardUpdateActionAt(service.baseUrl, subscriptionId)
    }

    /** The sign-up request the probe posts for the current data. */
    function SignupRequest(): Outgoing
      reads this
    {
      PostForm(SignupAction(),
               SignupForm(service.apiId, timeStamp, nonce, SignatureOf(data), DataString(data, "&amp;")))
    }

    /** `getHiddenFields()`: signs the data (freezing it) and renders the five inputs. */
    method GetHiddenFields() returns (html: string)
      requires Valid()
      modifies this`requestSignature
      ensures Valid() && requestSignature == Some(SignatureOf(data))
      ensures html == HiddenFields(service.apiId, IntToDecimal(timeStamp), nonce,
                                   DataString(data, "&amp;"), SignatureOf(data))
    {
      var signature := GetRequestSignature();
      html := HiddenFields(service.apiId, IntToDecimal(timeStamp), nonce, DataString(data, "&amp;"), signature);
    }

    /**
     * `checkAuth()`: sets the placeholder redirect, which throws once signed, then
     * returns `test()` as written, which throws when the probe got no response.
     */
    method CheckAuth(send: Outgoing -> Transport) returns (r: Result<bool, Exception>)
      requires Valid()
      modifies this`data, this`redirect, this`requestSignature, authTestUtility`lastResponse
      ensures Valid()
      ensures old(requestSignature).Some? ==>
                && r == Failure(AlreadySigned) && data == old(data) && redirect == old(redirect)
                && requestSignature == old(requestSignature)
                && authTestUtility.lastResponse == old(authTestUtility.lastResponse)
      ensures old(requestSignature).None? ==>
                && redirect == Some(LocalRedirect)
                && data == MergedData(old(data), Some(LocalRedirect))
                && requestSignature == Some(SignatureOf(data))
                && authTestUtility.lastResponse == Some(Receive(send(SignupRequest())))
                && r == TestOutcome(authTestUtility.lastResponse.value)
    {
      var outcome := SetRedirect(Some(LocalRedirect));
      if outcome.Fail? {
        return Failure(outcome.error);
      }
      r := authTestUtility.Test(send);
    }

    /** `checkAuth()` as intended: a probe without a response answers false. */
    method CheckAuthOrFalse(send: Outgoing -> Transport) returns (r: Result<bool, Exception>)
      requires Valid()
      modifies this`data, this`redirect, this`requestSignature, authTestUtility`lastResponse
      ensures Valid()
      ensures old(requestSignature).Some? ==>
                && r == Failure(AlreadySigned) && data == old(data) && redirect == old(redirect)
                && requestSignature == old(requestSignature)
                && authTestUtility.lastResponse == old(authTestUtility.lastResponse)
      ensures old(requestSignature).None? ==>
                && redirect == Some(LocalRedirect)
                && data == MergedData(old(data), Some(LocalRedirect))
                && requestSignature == Some(SignatureOf(data))
                && authTestUtility.lastResponse == Some(Receive(send(SignupRequest())))
                && r == Success(ProbeResult(authTestUtility.lastResponse.value))
    {
      var outcome := SetRedirect(Some(LocalRedirect));
      if outcome.Fail? {
        return Failure(outcome.error);
      }
      var ok := authTestUtility.TestOrFalse(send);
      r := Success(ok);
    }
  }

  function SignupActionAt(baseUrl: string): string {
    Trim(baseUrl, {'/'}) + "/signups"
  }

  function CardUpdateActionAt(baseUrl: string, subscriptionId: int): string {
    Trim(baseUrl, {'/'}) + "/subscriptions/" + IntToDecimal(subscriptionId) + "/card_update"
  }

  /** The V2 base URL without its trailing slash. */
  const TrimmedBaseUrl := "https://api.chargify.com/api/v2"

  lemma TrimBaseUrl(base: string)
    requires base == BaseUrl
    ensures Trim(base, {'/'}) == TrimmedBaseUrl
  {
    assert base[0] == 'h';
    assert TrimLeft(base, {'/'}) == base;
    var cut := base[..|base| - 1];
    assert cut == TrimmedBaseUrl;
    assert TrimRight(cut, {'/'}) == cut;
  }

  lemma SignupActionOfBaseUrl(base: string)
    requires base == BaseUrl
    ensures SignupActionAt(base) == TrimmedBaseUrl + "/signups"
  {
    TrimBaseUrl(base);
  }

  lemma CardUpdateActionOfBaseUrl(base: string, subscriptionId: int)
    requires base == BaseUrl
    ensures CardUpdateActionAt(base, subscriptionId)
            == TrimmedBaseUrl + "/subscriptions/" + IntToDecimal(subscriptionId) + "/card_update"
  {
    TrimBaseUrl(base);
  }

  /** The card-update URL of the documented example, subscription 1234. */
  lemma CardUpdateExample()
    ensures CardUpdateActionAt(BaseUrl, 1234)
            == TrimmedBaseUrl + "/subscriptions/" + "1234" + "/card_update"
  {
    CardUpdateActionOfBaseUrl(BaseUrl, 1234);
    DecimalOf1234();
  }

  lemma DecimalOf1234()
    ensures IntToDecimal(1234) == "1234"
  {
    assert NatToDecimal(1) == "1";
    assert NatToDecimal(12) == NatToDecimal(1) + ["0123456789"[2]] == "12";
    assert NatToDecimal(123) == NatToDecimal(12) + ["0123456789"[3]] == "123";
    assert NatToDecimal(1234) == NatToDecimal(123) + ["0123456789"[4]] == "1234";
  }

  /** A signature computed by the context is valid for the same fields, by the check as written and as intended. */
  lemma ResponseSignatureRoundTrip(d: Direct, apiId: string, timestamp: string, nonce: string,
                                   statusCode: string, resultCode: string, callId: string)
    ensures d.IsValidResponseSignature(d.GetResponseSignature(apiId, timestamp, nonce, statusCode, resultCode, callId),
                                       apiId, timestamp, nonce, statusCode, resultCode, callId)
    ensures d.IsValidResponseSignatureLoose(d.GetResponseSignature(apiId, timestamp, nonce, statusCode, resultCode, callId),
                                            apiId, timestamp, nonce, statusCode, resultCode, callId)
  {
    LooseEqualsReflexive(d.GetResponseSignature(apiId, timestamp, nonce, statusCode, resultCode, callId));
  }

  /** With digests in PHP's format, anything that is not 40 lower-case hex characters is rejected. */
  lemma NonDigestRejected(d: Direct, signature: string, apiId: string, timestamp: string, nonce: string,
                          statusCode: string, resultCode: string, callId: string)
    requires Sound(d.crypto)
    requires !IsDigest(signature)
    ensures !d.IsValidResponseSignature(signature, apiId, timestamp, nonce, statusCode, resultCode, callId)
  {
  }

  /** Forty 'x' characters is never a valid response signature, by the check as written or as intended. */
  lemma FortyXRejected(d: Direct, apiId: string, timestamp: string, nonce: string,
                       statusCode: string, resultCode: string, callId: string)
    requires Sound(d.crypto)
    ensures !d.IsValidResponseSignature(seq(40, _ => 'x'), apiId, timestamp, nonce, statusCode, resultCode, callId)
    ensures !d.IsValidResponseSignatureLoose(seq(40, _ => 'x'), apiId, timestamp, nonce, statusCode, resultCode, callId)
  {
    var xs := seq(40, _ => 'x');
    assert !IsLowerHexDigit(xs[0]);
    NonDigestRejected(d, xs, apiId, timestamp, nonce, statusCode, resultCode, callId);
    assert !IsDigit(xs[0]);
    assert ExponentMarker(xs).None?;
    NonNumericNonDigestRejected(d, xs, apiId, timestamp, nonce, statusCode, resultCode, callId);
  }

  /**
   * The check as written rejects a non-digest too, as long as it is not a numeric
   * string; `LooseComparisonAcceptsZero` shows that a numeric one can pass.
   */
  lemma NonNumericNonDigestRejected(d: Direct, signature: string, apiId: string, timestamp: string, nonce: string,
                                    statusCode: string, resultCode: string, callId: string)
    requires Sound(d.crypto)
    requires !IsDigest(signature) && !IsNumeric(signature)
    ensures !d.IsValidResponseSignatureLoose(signature, apiId, timestamp, nonce, statusCode, resultCode, callId)
  {
  }

  /**
   * The fields are concatenated without separators, so moving characters across
   * a field boundary keeps the signature.
   */
  lemma FieldBoundaryShiftKeepsSignature(d: Direct, apiId: string, timestamp: string, nonce: string,
                                         statusCode: string, moved: string, resultCode: string, callId: string)
    ensures d.GetResponseSignature(apiId, timestamp, nonce, statusCode + moved, resultCode, callId)
            == d.GetResponseSignature(apiId, timestamp, nonce, statusCode, moved + resultCode, callId)
  {
    assert apiId + timestamp + nonce + (statusCode + moved) + resultCode + callId
        == apiId + timestamp + nonce + statusCode + (moved + resultCode) + callId;
  }

  /**
   * The loose comparison as written accepts "0" whenever the expected signature
   * is "0e" followed by digits, although the two differ.
   */
  lemma LooseComparisonAcceptsZero(d: Direct, digits: string, apiId: string, timestamp: string, nonce: string,
                                   statusCode: string, resultCode: string, callId: string)
    requires AllDigits(digits)
    requires d.GetResponseSignature(apiId, timestamp, nonce, statusCode, resultCode, callId) == "0e" + digits
    ensures d.IsValidResponseSignatureLoose("0", apiId, timestamp, nonce, statusCode, resultCode, callId)
    ensures !d.IsValidResponseSignature("0", apiId, timestamp, nonce, statusCode, resultCode, callId)
  {
    ZeroExponentEqualsZero(digits);
    assert ("0e" + digits)[1] == 'e';
  }

  /** The strict comparison accepts exactly the expected signature. */
  lemma StrictComparisonExact(d: Direct, signature: string, apiId: string, timestamp: string, nonce: string,
                              statusCode: string, resultCode: string, callId: string)
    ensures d.IsValidResponseSignature(signature, apiId, timestamp, nonce, statusCode, resultCode, callId)
            <==> signature == d.GetResponseSignature(apiId, timestamp, nonce, statusCode, resultCode, callId)
  {
  }

  // ---------------------------------------------------------------------------
  // The credentials probe
  // ---------------------------------------------------------------------------

  class AuthRequest {
    const direct: Direct
    /** None until the probe has posted; then the response, or false. */
    var lastResponse: Option<Received>

    constructor (direct: Direct)
      ensures this.direct == direct && lastResponse == None
    {
      this.direct := direct;
      lastResponse := None;
    }

    /**
     * `request()`: signs the data (freezing it) and posts the sign-up form with the
     * `&amp;` data string; a RequestException without a response yields false.
     */
    method Request(send: Outgoing -> Transport) returns (r: Received)
      requires direct.Valid()
      modifies this`lastResponse, direct`requestSignature
      ensures direct.Valid() && direct.requestSignature == Some(direct.SignatureOf(direct.data))
      ensures r == Receive(send(direct.SignupRequest()))
      ensures lastResponse == Some(r)
    {
      var signature := direct.GetRequestSignature();
      var form := SignupForm(direct.service.apiId, direct.timeStamp, direct.nonce, signature,
                             DataString(direct.data, "&amp;"));
      r := Receive(send(PostForm(direct.SignupAction(), form)));
      lastResponse := Some(r);
    }

    /** `test()` as written: posts the probe and judges the response; throws when there is none. */
    method Test(send: Outgoing -> Transport) returns (r: Result<bool, Exception>)
      requires direct.Valid()
      modifies this`lastResponse, direct`requestSignature
      ensures direct.Valid() && direct.requestSignature == Some(direct.SignatureOf(direct.data))
      ensures lastResponse == Some(Receive(send(direct.SignupRequest())))
      ensures r == TestOutcome(lastResponse.value)
    {
      var response := Request(send);
      r := TestOutcome(response);
    }

    /** `test()` as intended: a transport failure is a failed probe. */
    method TestOrFalse(send: Outgoing -> Transport) returns (ok: bool)
      requires direct.Valid()
      modifies this`lastResponse, direct`requestSignature
      ensures direct.Valid() && direct.requestSignature == Some(direct.SignatureOf(direct.data))
      ensures lastResponse == Some(Receive(send(direct.SignupRequest())))
      ensures ok == ProbeResult(lastResponse.value)
    {
      var response := Request(send);
      ok := ProbeResult(response);
    }
  }
}
