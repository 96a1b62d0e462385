/** The version 2 service (`ChargifyV2`): credentials, the HTTP client set-up and `request()`. */
module ServiceV2 {
  import opened Wrappers
  import opened Php
  import opened Http

  const BaseUrl := "https://api.chargify.com/api/v2/"

  /** What `config['GuzzleHttp\Client']['handler']` holds. */
  datatype HandlerSetting = Unset | HandlerStack(name: string) | Other(v: Value)

  /** The handler the client ends up with. */
  datatype Handler = DefaultStack | GivenStack(name: string)

  datatype Config = Config(apiId: string, apiPassword: string, apiSecret: string, handler: HandlerSetting)

  const NotAHandlerStack := InvalidArgument("config['GuzzleHttp\\Client']['handler'] is not an instance of GuzzleHttp\\HandlerStack")

  /**
   * The handler check of the constructor: a missing or PHP-empty setting means the
   * default stack, a HandlerStack is used, and anything else is rejected.
   */
  function ResolveHandler(h: HandlerSetting): (r: Result<Handler, Exception>)
    ensures r.Failure? <==> h.Other? && !IsEmpty(h.v)
    ensures r.Failure? ==> r.error == NotAHandlerStack
    ensures r.Success? ==> (r.value.GivenStack? <==> h.HandlerStack?)
    ensures h.HandlerStack? ==> r == Success(GivenStack(h.name))
  {
    match h
    case Unset => Success(DefaultStack)
    case HandlerStack(n) => Success(GivenStack(n))
    case Other(v) => if IsEmpty(v) then Success(DefaultStack) else Failure(NotAHandlerStack)
  }

  /** The options the HTTP client is created with. */
  function ClientOptionsFor(config: Config): (o: ClientOptions)
    ensures o.baseUri == BaseUrl && o.timeout == Int(10) && !o.allowRedirects
    ensures o.auth == (config.apiId, config.apiPassword)
  {
    ClientOptions(BaseUrl, Int(10), false, (config.apiId, config.apiPassword),
                  [("User-Agent", UserAgent), ("Accept", "application/json")])
  }

  class ChargifyV2 {
    const config: Config
    const baseUrl: string
    const apiId: string
    const apiPassword: string
    const apiSecret: string
    const handler: Handler
    const clientOptions: ClientOptions
    /** None until the first request; then the response, or false. */
    var lastResponse: Option<Received>

    /** The part of the constructor that runs once the handler check has passed. */
    constructor Configured(config: Config, handler: Handler)
      ensures this.config == config && this.handler == handler
      ensures apiId == config.apiId && apiPassword == config.apiPassword && apiSecret == config.apiSecret
      ensures baseUrl == BaseUrl && clientOptions == ClientOptionsFor(config)
      ensures lastResponse == None
    {
      this.config := config;
      this.handler := handler;
      apiId := config.apiId;
      apiPassword := config.apiPassword;
      apiSecret := config.apiSecret;
      baseUrl := BaseUrl;
      clientOptions := ClientOptionsFor(config);
      lastResponse := None;
    }

    /** `new ChargifyV2($config)`, which throws when the handler setting is not a HandlerStack. */
    static method New(config: Config) returns (r: Result<ChargifyV2, Exception>)
      ensures r.Failure? <==> ResolveHandler(config.handler).Failure?
      ensures r.Failure? ==> r.error == NotAHandlerStack
      ensures r.Success? ==> fresh(r.value) && r.value.config == config
                             && r.value.handler == ResolveHandler(config.handler).value
                             && r.value.apiId == config.apiId && r.value.apiSecret == config.apiSecret
                             && r.value.apiPassword == config.apiPassword
                             && r.value.baseUrl == BaseUrl && r.value.lastResponse == None
    {
      var resolved := ResolveHandler(config.handler);
      if resolved.Failure? {
        r := Failure(resolved.error);
      } else {
        var service := new ChargifyV2.Configured(config, resolved.value);
        r := Success(service);
      }
    }

    /**
     * `request($path, $method, $rawData, $params)`: sends the prepared request and
     * records what came back as the last response; a request that cannot be prepared
     * throws and leaves the last response alone.
     */
    method Request(path: string, verb: string, rawData: Option<Payload>, params: seq<(Key, Value)>,
                   send: Outgoing -> Transport)
      returns (r: Result<Received, Exception>)
      modifies this`lastResponse
      ensures r == Exchange(Prepare(path, verb, rawData, params, ""), send)
      ensures r.Success? ==> lastResponse == Some(r.value)
      ensures r.Failure? ==> lastResponse == old(lastResponse)
    {
      var prepared := Prepare(path, verb, rawData, params, "");
      match prepared
      case Failure(e) =>
        r := Failure(e);
      case Success(req) =>
        var response := Receive(send(req));
        lastResponse := Some(response);
        r := Success(response);
    }
  }
}
