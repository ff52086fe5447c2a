/**
 * The synchronous client of client.py: its options, the stack of installed
 * HTTP clients, the response classifier and the request pipeline.
 *
 * The HTTP transport is a parameter (`send`), and so is the recogniser of API
 * error codes (`knownCode`), whose table lives in a module outside this model.
 */
module Clients {
  import opened Wrappers
  import opened Json
  import opened Text
  import opened Paths

  // --- Options ----------------------------------------------------------------

  const DEFAULT_BASE_URL: string := "https://api2.unipile.com:13260"
  const DEFAULT_TIMEOUT_MS: int := 60000
  /** `logging.WARNING`. */
  const WARNING: int := 30
  const DEFAULT_VERSION: string := "v1"
  const USER_AGENT: string := "salesloop/comm_client"

  /** `ClientOptions`, without the `logger` capability. */
  datatype ClientOptions = ClientOptions(
    auth: Option<string>,
    baseUrl: string,
    timeoutMs: int,
    logLevel: int,
    unipileVersion: string)

  /**
   * Keyword arguments for `ClientOptions(**kwargs)`: a field is `None` when its
   * keyword is not given (or given as `None` for `auth`); `unexpected` lists, in
   * order, every keyword that is not a field of `ClientOptions`.
   */
  datatype Keywords = Keywords(
    auth: Option<string>,
    baseUrl: Option<string>,
    timeoutMs: Option<int>,
    logLevel: Option<int>,
    unipileVersion: Option<string>,
    unexpected: seq<string>)

  const NO_KEYWORDS: Keywords := Keywords(None, None, None, None, None, [])

  /** The `TypeError` a dataclass raises for a keyword it has no field for. */
  datatype OptionsError = UnexpectedKeyword(name: string)

  /** `ClientOptions(**k)`: given fields replace the defaults, others keep them. */
  function FromKeywords(k: Keywords): (r: Result<ClientOptions, OptionsError>)
    ensures r.Success? <==> k.unexpected == []
    ensures r.Failure? ==> r.error == UnexpectedKeyword(k.unexpected[0])
    ensures r.Success? ==> r.value.auth == k.auth
    ensures r.Success? && k.baseUrl.Some? ==> r.value.baseUrl == k.baseUrl.value
    ensures r.Success? && k.baseUrl.None? ==> r.value.baseUrl == DEFAULT_BASE_URL
    ensures r.Success? && k.timeoutMs.Some? ==> r.value.timeoutMs == k.timeoutMs.value
    ensures r.Success? && k.timeoutMs.None? ==> r.value.timeoutMs == DEFAULT_TIMEOUT_MS
    ensures r.Success? && k.logLevel.Some? ==> r.value.logLevel == k.logLevel.value
    ensures r.Success? && k.logLevel.None? ==> r.value.logLevel == WARNING
    ensures r.Success? && k.unipileVersion.Some? ==> r.value.unipileVersion == k.unipileVersion.value
    ensures r.Success? && k.unipileVersion.None? ==> r.value.unipileVersion == DEFAULT_VERSION
  {
    if k.unexpected != [] then Failure(UnexpectedKeyword(k.unexpected[0]))
    else Success(ClientOptions(
      k.auth,
      k.baseUrl.GetOr(DEFAULT_BASE_URL),
      k.timeoutMs.GetOr(DEFAULT_TIMEOUT_MS),
      k.logLevel.GetOr(WARNING),
      k.unipileVersion.GetOr(DEFAULT_VERSION)))
  }

  /** With no keyword at all, every option has its documented default. */
  lemma DefaultOptions()
    ensures FromKeywords(NO_KEYWORDS)
         == Success(ClientOptions(None, "https://api2.unipile.com:13260", 60000, 30, "v1"))
  {
  }

  /** The `options` argument of the client: `None`, a dict, or an instance. */
  datatype OptionsArg = NoOptions | DictOptions(entries: Keywords) | Instance(options: ClientOptions)

  /** Normalisation at the top of `BaseClient.__init__`. */
  function Normalise(arg: OptionsArg, kwargs: Keywords): (r: Result<ClientOptions, OptionsError>)
    ensures arg.Instance? ==> r == Success(arg.options)
    ensures arg.DictOptions? ==> r == FromKeywords(arg.entries)
    ensures arg.NoOptions? ==> r == FromKeywords(kwargs)
  {
    match arg
    case NoOptions => FromKeywords(kwargs)
    case DictOptions(entries) => FromKeywords(entries)
    case Instance(o) => Success(o)
  }

  /**
   * Keyword arguments only matter when `options` is `None`; normalised
   * options, passed back in as an instance, come out unchanged.
   */
  lemma NormaliseProperties(arg: OptionsArg, k1: Keywords, k2: Keywords)
    ensures !arg.NoOptions? ==> Normalise(arg, k1) == Normalise(arg, k2)
    ensures Normalise(arg, k1).Success? ==>
              Normalise(Instance(Normalise(arg, k1).value), k2) == Normalise(arg, k1)
  {
  }

  // --- Installed clients --------------------------------------------------------

  /** The base URL every installed client gets: `{base_url}/api/{version}/`. */
  function BaseUrl(o: ClientOptions): (u: string)
    ensures StartsWith(u, o.baseUrl)
    ensures |u| >= 1 && u[|u| - 1] == '/'
  {
    o.baseUrl + "/api/" + o.unipileVersion + "/"
  }

  /**
   * The URL a request goes to is the base URL followed by its path: no slash
   * is added or removed, so the path's own segments, a trailing empty one
   * included, come last.
   */
  lemma {:induction false} RequestUrlSegments(o: ClientOptions, path: string)
    requires NoSlash(o.unipileVersion)
    ensures Split(BaseUrl(o) + path) == Split(o.baseUrl) + ["api", o.unipileVersion] + Split(path)
  {
    assert NoSlash("api");
    var v := o.unipileVersion;
    assert BaseUrl(o) + path == o.baseUrl + "/" + ("api" + "/" + (v + "/" + path));
    Between2(o.baseUrl, "api", v, path);
    assert Split(o.baseUrl) + (["api"] + ([v] + Split(path))) == Split(o.baseUrl) + ["api", v] + Split(path);
  }

  /** The header set installed on a client: `User-Agent`, and the key only when `auth` is truthy. */
  function InstalledHeaders(auth: Option<string>): (h: map<string, string>)
    ensures "User-Agent" in h && h["User-Agent"] == USER_AGENT
    ensures "X-API-KEY" in h <==> auth.Some? && auth.value != ""
    ensures "X-API-KEY" in h ==> h["X-API-KEY"] == auth.value
    ensures forall k :: k in h ==> k == "User-Agent" || k == "X-API-KEY"
  {
    if auth.Some? && auth.value != "" then
      map["User-Agent" := USER_AGENT, "X-API-KEY" := auth.value]
    else
      map["User-Agent" := USER_AGENT]
  }

  /** The lifecycle of an `httpx.Client`'s connection pool. */
  datatype PoolState = Unopened | Opened | Closed

  /** An `httpx.Client`, reduced to the attributes the client code sets. */
  class HttpClient {
    var baseUrl: string
    var timeoutMs: int
    var headers: map<string, string>
    var state: PoolState

    constructor ()
      ensures state == Unopened
    {
      baseUrl := "";
      timeoutMs := 5000;
      headers := map[];
      state := Unopened;
    }
  }

  /** `c` carries exactly the configuration the setter installs for `o`. */
  predicate Configured(c: HttpClient, o: ClientOptions)
    reads c
  {
    c.baseUrl == BaseUrl(o) && c.timeoutMs == o.timeoutMs && c.headers == InstalledHeaders(o.auth)
  }

  // --- Responses ----------------------------------------------------------------

  datatype Method = GET | POST | DELETE

  /** What `build_request` hands to the transport (query encoding is not modelled). */
  datatype HttpRequest = HttpRequest(
    verb: Method,
    url: string,
    query: Option<map<string, JValue>>,
    body: Option<JValue>,
    headers: map<string, string>)

  /** A response body: decodable JSON, or anything `json.loads` rejects. */
  datatype Body = Decoded(value: JValue) | NotJson

  datatype Response = Response(status: int, body: Body)

  /**
   * What the transport does with a request: times out, fails in another way
   * (a connection or protocol error, named by `kind`), or gets a response.
   */
  datatype Transmission = TimedOut | TransportFailed(kind: string) | Received(response: Response)

  /** The exceptions a request can end in. */
  datatype ClientError =
    | APIResponseError(status: int, code: JValue, message: JValue)
    | HTTPResponseError(status: int)
    | RequestTimeoutError
      /** Any other transport exception, which `request` lets through as it is. */
    | TransportError(kind: string)
      /** A 2xx body that is not JSON: `response.json()` raises, uncaught. */
    | JSONDecodeError
      /** An error body that is JSON but not an object: `body.get` raises. */
    | AttributeError
      /** A recognised code whose body has no `message` field. */
    | KeyError(key: string)
      /** No current client: `self._clients[-1]` on an empty stack. */
    | IndexError

  /** `raise_for_status` passes exactly the 2xx statuses. */
  predicate IsSuccess(status: int) {
    200 <= status <= 299
  }

  /** `body.get("code")`: `None` (here `null`) when the key is absent. */
  function ErrorCode(fields: map<string, JValue>): JValue {
    if "code" in fields then fields["code"] else JNull
  }

  /** `_parse_response`: the decoded body on 2xx, otherwise the error it raises. */
  function ParseResponse(resp: Response, knownCode: JValue -> bool): (r: Result<JValue, ClientError>)
    // a 2xx response returns its decoded body unchanged, and nothing else succeeds
    ensures r.Success? <==> IsSuccess(resp.status) && resp.body.Decoded?
    ensures r.Success? ==> r.value == resp.body.value
    ensures IsSuccess(resp.status) && resp.body.NotJson? ==> r == Failure(JSONDecodeError)
    // an API error exactly for a truthy, recognised code, carrying that code and the message
    ensures r.Failure? && r.error.APIResponseError? <==>
              && !IsSuccess(resp.status) && resp.body.Decoded? && resp.body.value.JObj?
              && Truthy(ErrorCode(resp.body.value.fields)) && knownCode(ErrorCode(resp.body.value.fields))
              && "message" in resp.body.value.fields
    ensures r.Failure? && r.error.APIResponseError? ==>
              r.error == APIResponseError(resp.status, resp.body.value.fields["code"],
                                          resp.body.value.fields["message"])
    // an HTTP error for an undecodable body, or a missing, falsy or unrecognised code
    ensures r.Failure? && r.error.HTTPResponseError? <==>
              && !IsSuccess(resp.status)
              && (|| resp.body.NotJson?
                  || (&& resp.body.value.JObj?
                      && !(Truthy(ErrorCode(resp.body.value.fields)) && knownCode(ErrorCode(resp.body.value.fields))))) 
    ensures r.Failure? && r.error.HTTPResponseError? ==> r.error.status == resp.status
    // the Python errors of a failure status: a JSON body that is not an object, or a missing message
    ensures !IsSuccess(resp.status) && resp.body.Decoded? && !resp.body.value.JObj? ==> r == Failure(AttributeError)
    ensures && !IsSuccess(resp.status) && resp.body.Decoded? && resp.body.value.JObj?
            && Truthy(ErrorCode(resp.body.value.fields)) && knownCode(ErrorCode(resp.body.value.fields))
            && "message" !in resp.body.value.fields
            ==> r == Failure(KeyError("message"))
    ensures r.Failure? ==> !r.error.RequestTimeoutError? && !r.error.TransportError? && !r.error.IndexError?
  {
    if IsSuccess(resp.status) then
      match resp.body
      case Decoded(v) => Success(v)
      case NotJson => Failure(JSONDecodeError)
    else
      match resp.body
      case NotJson => Failure(HTTPResponseError(resp.status))
      case Decoded(v) =>
        if !v.JObj? then Failure(AttributeError)
        else
          var code := ErrorCode(v.fields);
          if Truthy(code) && knownCode(code) then
            if "message" in v.fields then Failure(APIResponseError(resp.status, code, v.fields["message"]))
            else Failure(KeyError("message"))
          else Failure(HTTPResponseError(resp.status))
  }

  /** The error with its status replaced; errors without a status are unchanged. */
  function WithStatus(e: ClientError, status: int): ClientError {
    match e
    case APIResponseError(_, code, message) => APIResponseError(status, code, message)
    case HTTPResponseError(_) => HTTPResponseError(status)
    case _ => e
  }

  /**
   * For failure statuses the classification depends on the body alone: two
   * non-2xx responses with the same body raise the same error, up to the
   * status it carries.
   */
  lemma ClassificationIgnoresStatus(s1: int, s2: int, body: Body, knownCode: JValue -> bool)
    requires !IsSuccess(s1) && !IsSuccess(s2)
    ensures ParseResponse(Response(s1, body), knownCode).Failure?
    ensures ParseResponse(Response(s2, body), knownCode)
         == Failure(WithStatus(ParseResponse(Response(s1, body), knownCode).error, s2))
  {
  }

  // --- The client -----------------------------------------------------------------

  /**
   * `Client`: fixed options and the stack `_clients` of installed HTTP
   * clients; the current client is the top of the stack.
   */
  class Client {
    const options: ClientOptions
    var clients: seq<HttpClient>

    /** Every client on the stack carries the configuration of `options`. */
    ghost predicate Valid()
      reads this, clients
    {
      forall i :: 0 <= i < |clients| ==> Configured(clients[i], options)
    }

    /** The `client` property: the last client pushed, if there is one. */
    function Current(): (r: Option<HttpClient>)
      reads this
      ensures r.Some? <==> clients != []
      ensures r.Some? ==> r.value == clients[|clients| - 1]
    {
      if clients == [] then None else Some(clients[|clients| - 1])
    }

    /** The objects `Exit` may change: the current client. */
    function Top(): set<object>
      reads this
    {
      if clients == [] then {} else {clients[|clients| - 1]}
    }

    /** `BaseClient.__init__` after normalisation, with `Client.__init__`'s fresh default client. */
    constructor (options: ClientOptions, client: HttpClient?)
      modifies client
      ensures this.options == options
      ensures Valid() && |clients| == 1
      ensures client != null ==> clients == [client] && client.state == old(client.state)
      ensures client == null ==> fresh(clients[0]) && clients[0].state == Unopened
    {
      this.options := options;
      clients := [];
      new;
      var c := client;
      if c == null {
        c := new HttpClient();
      }
      Install(c);
    }

    /** `Client(options, client, **kwargs)`: normalise the options, then construct. */
    static method Create(arg: OptionsArg, kwargs: Keywords, client: HttpClient?)
      returns (r: Result<Client, OptionsError>)
      modifies client
      ensures r.Failure? <==> Normalise(arg, kwargs).Failure?
      ensures r.Failure? ==> r.error == Normalise(arg, kwargs).error
      ensures r.Success? ==>
                && fresh(r.value) && r.value.Valid() && |r.value.clients| == 1
                && r.value.options == Normalise(arg, kwargs).value
                && (client != null ==> r.value.clients == [client])
    {
      var o := Normalise(arg, kwargs);
      if o.Failure? {
        return Failure(o.error);
      }
      var c := new Client(o.value, client);
      return Success(c);
    }

    /**
     * The `client` setter: configure `c` for these options, replacing its
     * base URL, timeout and headers, and push it.
     */
    method Install(c: HttpClient)
      requires Valid()
      modifies this, c
      ensures Valid()
      ensures clients == old(clients) + [c]
      ensures Configured(c, options) && c.state == old(c.state)
    {
      c.baseUrl := options.baseUrl + "/api/" + options.unipileVersion + "/";
      c.timeoutMs := options.timeoutMs;
      var headers := map["User-Agent" := USER_AGENT];
      if options.auth.Some? && options.auth.value != "" {
        headers := headers["X-API-KEY" := options.auth.value];
      }
      c.headers := headers;
      clients := clients + [c];
    }

    /** `__enter__`: push a fresh client, configured, and open it. */
    method Enter() returns (self: Client)
      requires Valid()
      modifies this
      ensures self == this && Valid()
      ensures |clients| == |old(clients)| + 1 && clients[..|old(clients)|] == old(clients)
      ensures fresh(clients[|clients| - 1]) && clients[|clients| - 1].state == Opened
    {
      var c := new HttpClient();
      Install(c);
      c.state := Opened;
      self := this;
    }

    /**
     * `__exit__`: close the current client and pop it. On an empty stack the
     * property raises `IndexError` (`ok` is false) and nothing changes.
     */
    method Exit() returns (ok: bool)
      requires Valid()
      modifies this, Top()
      ensures Valid()
      ensures ok <==> old(clients) != []
      ensures !ok ==> clients == old(clients)
      ensures ok ==> clients == old(clients)[..|old(clients)| - 1]
      ensures ok ==> old(clients)[|old(clients)| - 1].state == Closed
    {
      if clients == [] {
        return false;
      }
      var c := clients[|clients| - 1];
      c.state := Closed;
      clients := clients[..|clients| - 1];
      ok := true;
    }

    /**
     * A `with client:` block around nothing: `__enter__` then `__exit__`
     * leave the stack, and so the current client, as they were.
     */
    method EnterExit()
      requires Valid()
      modifies this
      ensures Valid() && clients == old(clients) && Current() == old(Current())
    {
      var self := Enter();
      var ok := Exit();
      assert clients == old(clients);
    }

    /**
     * `Client.request`: build the request on the current client, send it,
     * map a timeout to `RequestTimeoutError` and otherwise classify the
     * response. `sent` is the request handed to the transport.
     */
    method Request(path: string, verb: Method, query: Option<map<string, JValue>>, body: Option<JValue>,
                   send: HttpRequest -> Transmission, knownCode: JValue -> bool)
      returns (sent: Option<HttpRequest>, r: Result<JValue, ClientError>)
      requires Valid()
      ensures clients == [] ==> sent == None && r == Failure(IndexError)
      ensures clients != [] ==>
                sent == Some(HttpRequest(verb, BaseUrl(options) + path, query, body,
                                         InstalledHeaders(options.auth)))
      ensures clients != [] && send(sent.value).TimedOut? ==> r == Failure(RequestTimeoutError)
      ensures clients != [] && send(sent.value).TransportFailed? ==>
                r == Failure(TransportError(send(sent.value).kind))
      ensures clients != [] && send(sent.value).Received? ==>
                r == ParseResponse(send(sent.value).response, knownCode)
    {
      if clients == [] {
        return None, Failure(IndexError);
      }
      var c := clients[|clients| - 1];
      var request := HttpRequest(verb, c.baseUrl + path, query, body, c.headers);
      sent := Some(request);
      var t := send(request);
      match t {
        case TimedOut =>
          r := Failure(RequestTimeoutError);
        case TransportFailed(kind) =>
          r := Failure(TransportError(kind));
        case Received(resp) =>
          r := ParseResponse(resp, knownCode);
      }
    }
  }
}
