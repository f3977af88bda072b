/** The REST transport (notebooks/pbiDatasetAPI.py, executePBIRequest): validates the HTTP
    method, prefixes the Power BI REST base URL and decides whether the body is sent. The
    network is a function from the request sent to the response received, and every request
    sent is appended to a log. */
module Transport {
  import opened Wrappers
  import opened Text

  /** The HTTP methods the transport accepts. */
  datatype Method = Get | Post | Put | Delete

  /** One entry of a dataset listing: its key and its name. */
  datatype Dataset = Dataset(id: string, name: string)

  /** A request as sent: the method, the absolute URL and the JSON body, if one is attached.
      The authorization header is the same on every request and is not modelled. */
  datatype Request = Request(verb: Method, url: string, body: Option<string>)

  /** The parts of a response the client reads: the `value` list of a listing and the `id` of a
      created dataset, each absent when the response has no such key. */
  datatype Response = Response(value: Option<seq<Dataset>>, id: Option<string>)

  /** The remote service: the response it gives to each request. */
  type Server = Request -> Response

  /** The failures the client raises. */
  datatype Error =
    | InvalidMethod(methodName: string)          // the method is not one of get, post, put, delete
    | MissingParameters(operation: string)   // a parameter the operation needs was not given
    | DatasetExists(datasetName: string)     // postdataset without re-creation found the name taken
    | MissingKey(key: string)                // a response lacks a key the client reads

  /** Every request goes to this base URL followed by its endpoint. */
  const BaseUrl: string := "https://api.powerbi.com/v1.0/myorg/"

  /** The lower-case name of a method. */
  function MethodName(m: Method): string
  {
    match m
    case Get => "get"
    case Post => "post"
    case Put => "put"
    case Delete => "delete"
  }

  /** The method the transport uses for a method name, compared in lower case. */
  function ParseMethod(methodName: string): Option<Method>
  {
    var m := ToLower(methodName);
    if m == "get" then Some(Get)
    else if m == "post" then Some(Post)
    else if m == "put" then Some(Put)
    else if m == "delete" then Some(Delete)
    else None
  }

  /** The body actually sent: GET, POST and PUT pass the body on (none when it is `None`);
      DELETE never sends one. */
  function AttachedBody(m: Method, body: Option<string>): Option<string>
  {
    match m
    case Get => body
    case Post => body
    case Put => body
    case Delete => None
  }

  /** The request sent for a valid method. */
  function MakeRequest(m: Method, endpoint: string, body: Option<string>): Request
  {
    Request(m, BaseUrl + endpoint, AttachedBody(m, body))
  }

  /** Sending a request with a valid method: it is logged and answered. */
  function Issue(server: Server, log: seq<Request>, m: Method, endpoint: string, body: Option<string>)
    : (seq<Request>, Response)
  {
    var request := MakeRequest(m, endpoint, body);
    (log + [request], server(request))
  }

  /** executePBIRequest: an invalid method fails before anything is sent; otherwise one
      request is sent and its response returned. */
  function Send(server: Server, log: seq<Request>, endpoint: string, body: Option<string>, methodName: string)
    : (seq<Request>, Result<Response, Error>)
  {
    match ParseMethod(methodName)
    case None => (log, Failure(InvalidMethod(ToLower(methodName))))
    case Some(m) =>
      var (log', response) := Issue(server, log, m, endpoint, body);
      (log', Success(response))
  }

  /** Method names are read in lower case, and the name of each method reads back as it. */
  lemma MethodNamesRoundTrip(methodName: string, m: Method)
    ensures ParseMethod(MethodName(m)) == Some(m)
    ensures ParseMethod(methodName) == Some(m) <==> ToLower(methodName) == MethodName(m)
  {
    DispatcherMethodNames();
    LowerIsLower(methodName);
    var t := ToLower(methodName);
    assert ParseMethod(methodName) == ParseMethod(t);
  }

  /** The method names the dispatcher passes are all valid. */
  lemma DispatcherMethodNames()
    ensures ParseMethod("get") == Some(Get) && ParseMethod("post") == Some(Post)
    ensures ParseMethod("put") == Some(Put) && ParseMethod("delete") == Some(Delete)
  {
    assert ToLower("get") == "get" && ToLower("post") == "post";
    assert ToLower("put") == "put" && ToLower("delete") == "delete";
  }

  /** Exactly the four names get, post, put and delete are accepted, in any case. */
  lemma AcceptedMethods(methodName: string)
    ensures ParseMethod(methodName).Some? <==> ToLower(methodName) in {"get", "post", "put", "delete"}
    ensures ParseMethod(methodName) == ParseMethod(ToLower(methodName))
  {
    LowerIsLower(methodName);
  }

  /** An invalid method is refused before any request is sent. */
  lemma InvalidMethodSendsNothing(server: Server, log: seq<Request>, endpoint: string, body: Option<string>, methodName: string)
    requires ToLower(methodName) !in {"get", "post", "put", "delete"}
    ensures Send(server, log, endpoint, body, methodName) == (log, Failure(InvalidMethod(ToLower(methodName))))
  {
    AcceptedMethods(methodName);
  }

  /** A valid method sends exactly one request, to the base URL followed by the endpoint, and
      returns the server's response to it; DELETE carries no body, the others the given one. */
  lemma ValidMethodSendsOne(server: Server, log: seq<Request>, endpoint: string, body: Option<string>, methodName: string)
    requires ToLower(methodName) in {"get", "post", "put", "delete"}
    ensures var (log', r) := Send(server, log, endpoint, body, methodName);
      exists m: Method ::
        MethodName(m) == ToLower(methodName) &&
        log' == log + [Request(m, BaseUrl + endpoint, if m == Delete then None else body)] &&
        r == Success(server(log'[|log|]))
  {
    AcceptedMethods(methodName);
    var m := ParseMethod(methodName).value;
    MethodNamesRoundTrip(methodName, m);
  }

  /** Every URL the transport sends to lies under the base URL. */
  lemma UrlUnderBase(m: Method, endpoint: string, body: Option<string>)
    ensures HasPrefix(MakeRequest(m, endpoint, body).url, BaseUrl)
  {
    var url := MakeRequest(m, endpoint, body).url;
    assert url[..|BaseUrl|] == BaseUrl;
  }
}
