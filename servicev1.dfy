/** The version 1 service (`Chargify`): the hostname, the key, the client set-up and `request()`. */
module ServiceV1 {
  import opened Wrappers
  import opened Php
  import opened Http

  const DefaultTimeout := 10
  const Format := "json"
  /** The HTTP password of the version 1 API is always "x". */
  const Password := "x"

  datatype Config = Config(hostname: string, apiKey: string, sharedKey: string, timeout: Value)

  /** The configured timeout when it is not PHP-empty, otherwise ten seconds. */
  function TimeoutFor(config: Config): (t: Value)
    ensures !IsEmpty(t)
    ensures !IsEmpty(config.timeout) ==> t == config.timeout
    ensures IsEmpty(config.timeout) ==> t == Int(DefaultTimeout)
  {
    if !IsEmpty(config.timeout) then config.timeout else Int(DefaultTimeout)
  }

  /** The client base URI: the hostname without surrounding slashes, between "https://" and one "/". */
  function BaseUriFor(config: Config): (uri: string)
    ensures |uri| >= 9
    ensures var h := uri[8..|uri| - 1];
            uri == "https://" + h + "/" && (h == [] || (h[0] != '/' && h[|h| - 1] != '/'))
    ensures uri[8..|uri| - 1] == Trim(config.hostname, {'/'})
  {
    var h := Trim(config.hostname, {'/'});
    var uri := "https://" + h + "/";
    assert uri[8..|uri| - 1] == h;
    uri
  }

  /** Slashes around the configured hostname are dropped from the base URI. */
  lemma BaseUriDropsSlashes(host: string, apiKey: string, sharedKey: string, timeout: Value)
    requires forall j :: 0 <= j < |host| ==> host[j] != '/'
    ensures BaseUriFor(Config("/" + host + "/", apiKey, sharedKey, timeout)) == "https://" + host + "/"
  {
    SlashedHostTrims(host);
  }

  lemma SlashedHostTrims(host: string)
    requires forall j :: 0 <= j < |host| ==> host[j] != '/'
    ensures Trim("/" + host + "/", {'/'}) == host
  {
    var s := "/" + host + "/";
    var t := host + "/";
    assert s[1..] == t;
    if host == [] {
      assert TrimLeft(t, {'/'}) == TrimLeft(t[1..], {'/'});
    } else {
      assert TrimLeft(s, {'/'}) == TrimLeft(t, {'/'}) == t;
      assert t[..|t| - 1] == host;
      assert TrimRight(t, {'/'}) == TrimRight(host, {'/'}) == host;
    }
  }

  class Chargify {
    const config: Config
    const hostname: string
    const apiKey: string
    const sharedKey: string
    const timeout: Value
    const clientOptions: ClientOptions
    /** None until the first request; then the response, or false. */
    var lastResponse: Option<Received>

    constructor (config: Config)
      ensures this.config == config
      ensures hostname == Trim(config.hostname, {'/'})
      ensures apiKey == config.apiKey && sharedKey == config.sharedKey
      ensures timeout == TimeoutFor(config)
      ensures clientOptions.baseUri == BaseUriFor(config) && clientOptions.timeout == timeout
      ensures clientOptions.auth == (config.apiKey, Password) && !clientOptions.allowRedirects
      ensures lastResponse == None
    {
      this.config := config;
      hostname := Trim(config.hostname, {'/'});
      apiKey := config.apiKey;
      sharedKey := config.sharedKey;
      timeout := TimeoutFor(config);
      clientOptions := ClientOptions(BaseUriFor(config), TimeoutFor(config), false, (config.apiKey, Password),
                                     [("User-Agent", UserAgent), ("Content-Type", "application/" + Format)]);
      lastResponse := None;
    }

    /**
     * `request($path, $method, $rawData, $params)`: as in version 2, with ".json"
     * appended to the path.
     */
    method Request(path: string, verb: string, rawData: Option<Payload>, params: seq<(Key, Value)>,
                   send: Outgoing -> Transport)
      returns (r: Result<Received, Exception>)
      modifies this`lastResponse
      ensures r == Exchange(Prepare(path, verb, rawData, params, "." + Format), send)
      ensures r.Success? ==> lastResponse == Some(r.value)
      ensures r.Failure? ==> lastResponse == old(lastResponse)
    {
      var prepared := Prepare(path, verb, rawData, params, "." + Format);
      match prepared
      case Failure(e) =>
        r := Failure(e);
      case Success(req) =>
        var response := Receive(send(req));
        lastResponse := Some(response);
        r := Success(response);
    }
  }
}
