/** Building one call to the build server, sending it, and reading the
    application status out of the response headers. */
module Requests {
  import opened Common
  import opened Decimal
  import opened JobType
  import opened UploadType
  import opened Response
  import opened Errors

  /** HTTP request methods. */
  type Method = string

  const GET: Method := "GET"
  const POST: Method := "POST"
  const DELETE: Method := "DELETE"
  const PUT: Method := "PUT"

  type ContentType = string

  const JSONContentType: ContentType := "application/json"

  /** A path on the server. */
  type Endpoint = string

  const EPPing: Endpoint := "/ping"
  const EPUser: Endpoint := "/user"
  const EPLogin: Endpoint := EPUser + "/login"
  const EPRegister: Endpoint := EPUser + "/register"
  const EPJob: Endpoint := "/job"
  const EPJobAdd: Endpoint := EPJob + "/create"
  const EPJobs: Endpoint := EPJob + "s"
  const EPCcache: Endpoint := "/ccache"
  const EPCcacheClear: Endpoint := EPCcache + "/clear"
  const EPCcacheStats: Endpoint := EPCcache + "/stats"

  datatype RequestConfig = RequestConfig(
    ignoreCert: bool,
    url: string,
    machineID: string,
    username: string,
    sessionToken: string)

  /** An authorization scheme and its credential. */
  datatype Authorization = Authorization(authType: string, payload: string)

  const Bearer: string := "Bearer"

  /** The Authorization header value: "<scheme> <credential>". */
  function AuthorizationHeader(a: Authorization): (h: string)
    ensures |h| == |a.authType| + 1 + |a.payload|
    ensures h[..|a.authType|] == a.authType && h[|a.authType|] == ' '
    ensures h[|a.authType| + 1..] == a.payload
  {
    a.authType + " " + a.payload
  }

  /** When the scheme contains no space, as "Bearer" does not, the header
      value determines scheme and credential: the first space splits them. */
  lemma AuthorizationHeaderInjective(a: Authorization, b: Authorization)
    requires ' ' !in a.authType && ' ' !in b.authType
    requires AuthorizationHeader(a) == AuthorizationHeader(b)
    ensures a == b
  {
  }

  /** RequestConfig.GetBearerAuth: the bearer credential of section 2.1 of
      RFC 6750, carrying the session token. */
  function GetBearerAuth(rc: RequestConfig): (a: Authorization)
    ensures AuthorizationHeader(a) == "Bearer " + rc.sessionToken
    ensures a.authType == Bearer
  {
    Authorization(Bearer, rc.sessionToken)
  }

  datatype PingRequest = PingRequest(payload: string)

  datatype CredentialsRequest = CredentialsRequest(machineID: string, username: string, password: string)

  datatype AddJobRequest = AddJobRequest(
    jobType: JobType,
    args: map<string, string>,
    uploadType: UploadType,
    disableCcache: bool)

  /** The dynamic value a request carries as its payload. */
  datatype Payload =
    | NilPayload
    | PingPayload(ping: PingRequest)
    | Credentials(credentials: CredentialsRequest)
    | NewJob(job: AddJobRequest)
    | ByteSlice(bytes: Bytes)          // a []byte
    | Reader(stream: nat)              // any io.Reader, *io.PipeReader included
    | PipeReaderValue(stream: nat)     // an io.PipeReader held by value

  /** Go's `type RequestType uint8`. */
  newtype RequestType = x: int | 0 <= x < 256

  const JSONRequestType: RequestType := 0
  const RawRequestType: RequestType := 1

  /** A `chan time.Time`, known by its identity. */
  type Channel = nat

  /** The fields of a Request at one moment. */
  datatype RequestView = RequestView(
    requestType: RequestType,
    endpoint: Endpoint,
    payload: Payload,
    config: RequestConfig,
    httpMethod: Method,
    contentType: ContentType,
    authorization: Option<Authorization>,
    headers: Option<map<string, string>>,
    benchChan: Option<Channel>,
    closeBody: bool)

  /** What NewRequest fills in. */
  function Defaults(config: RequestConfig, endpoint: Endpoint, payload: Payload): RequestView {
    RequestView(JSONRequestType, endpoint, payload, config, POST, JSONContentType, None, None, None, true)
  }

  /** A request under construction; each With* setter changes one field in
      place and hands back the same request for chaining. */
  class Request {
    var requestType: RequestType
    var endpoint: Endpoint
    var payload: Payload
    var config: RequestConfig
    var httpMethod: Method
    var contentType: ContentType
    var authorization: Option<Authorization>
    var headers: Option<map<string, string>>
    var benchChan: Option<Channel>
    var closeBody: bool

    function View(): RequestView
      reads this
    {
      RequestView(requestType, endpoint, payload, config, httpMethod, contentType,
                  authorization, headers, benchChan, closeBody)
    }

    /** LibRB.NewRequest: a JSON POST with content type application/json
        that closes the response body, with no authorization and no extra
        headers. */
    constructor New(config: RequestConfig, endpoint: Endpoint, payload: Payload)
      ensures View() == Defaults(config, endpoint, payload)
      ensures requestType == JSONRequestType && httpMethod == POST && contentType == JSONContentType
      ensures closeBody && authorization.None? && headers.None? && benchChan.None?
    {
      requestType := JSONRequestType;
      this.endpoint := endpoint;
      this.payload := payload;
      this.config := config;
      httpMethod := POST;
      contentType := JSONContentType;
      authorization := None;
      headers := None;
      benchChan := None;
      closeBody := true;
    }

    method WithNoBodyClose() returns (r: Request)
      modifies this
      ensures r == this
      ensures View() == old(View()).(closeBody := false)
    {
      closeBody := false;
      r := this;
    }

    method WithMethod(m: Method) returns (r: Request)
      modifies this
      ensures r == this
      ensures View() == old(View()).(httpMethod := m)
    {
      httpMethod := m;
      r := this;
    }

    method WithRequestType(rType: RequestType) returns (r: Request)
      modifies this
      ensures r == this
      ensures View() == old(View()).(requestType := rType)
    {
      requestType := rType;
      r := this;
    }

    method WithAuth(a: Authorization) returns (r: Request)
      modifies this
      ensures r == this
      ensures View() == old(View()).(authorization := Some(a))
    {
      authorization := Some(a);
      r := this;
    }

    /** Bearer authorization carrying the configured session token. */
    method WithAuthFromConfig() returns (r: Request)
      modifies this
      ensures r == this
      ensures View() == old(View()).(authorization := Some(GetBearerAuth(config)))
      ensures AuthorizationHeader(authorization.value) == "Bearer " + config.sessionToken
    {
      var auth := GetBearerAuth(config);
      authorization := Some(auth);
      r := this;
    }

    method WithBenchCallback(c: Channel) returns (r: Request)
      modifies this
      ensures r == this
      ensures View() == old(View()).(benchChan := Some(c))
    {
      benchChan := Some(c);
      r := this;
    }

    method WithContentType(ct: ContentType) returns (r: Request)
      modifies this
      ensures r == this
      ensures View() == old(View()).(contentType := ct)
    {
      contentType := ct;
      r := this;
    }

    /** Sets one extra header, creating the header map on first use; an
        earlier value under the same name is replaced. */
    method WithHeader(name: string, value: string) returns (r: Request)
      modifies this
      ensures r == this
      ensures View() == old(View()).(headers := Some(old(headers).GetOr(map[])[name := value]))
      ensures headers.Some? && name in headers.value && headers.value[name] == value
      ensures forall k :: k != name && old(headers).Some? && k in old(headers).value
                ==> k in headers.value && headers.value[k] == old(headers).value[k]
      ensures forall k :: k in headers.value && k != name ==> old(headers).Some? && k in old(headers).value
    {
      if headers.None? {
        headers := Some(map[]);
      }
      headers := Some(headers.value[name := value]);
      r := this;
    }
  }

  /** The body sent on the wire. */
  datatype Body = BytesBody(bytes: Bytes) | StreamBody(stream: nat)

  /** The http.Request handed to the client. The target URL is the base URL
      with the endpoint path joined to it; the join is left to the transport. */
  datatype HttpRequest = HttpRequest(verb: Method, baseURL: string, path: Endpoint, body: Body, header: Header)

  /** The collaborators of a call that are not modelled: url.Parse (the
      error it gives, if any), json.Marshal, and client.Do (a transport
      error, or a response). */
  datatype Env = Env(
    parseURL: string -> Option<Error>,
    marshal: Payload -> Result<Bytes, Error>,
    exchange: HttpRequest -> Result<HttpResponse, Error>)

  /** A value-typed io.PipeReader matches the third case of the payload
      switch, whose type assertion to *io.PipeReader then panics. */
  predicate PayloadPanics(req: RequestView)
    ensures req.requestType == RawRequestType && req.payload.PipeReaderValue? ==> PayloadPanics(req)
    ensures req.requestType != RawRequestType || !req.payload.PipeReaderValue? ==> !PayloadPanics(req)
  {
    req.requestType == RawRequestType && req.payload.PipeReaderValue?
  }

  /** A character allowed in an HTTP token (the tchar of section 3.2.6 of
      RFC 7230). */
  predicate IsTokenChar(c: char) {
    || 'a' <= c <= 'z' || 'A' <= c <= 'Z' || '0' <= c <= '9'
    || c in "!#$%&'*+-.^_`|~"
  }

  /** A method http.NewRequest accepts once "" has become GET: a non-empty
      token. */
  predicate ValidMethod(m: Method) {
    |m| > 0 && forall i :: 0 <= i < |m| ==> IsTokenChar(m[i])
  }

  /** The method http.NewRequest puts on the wire: "" stands for GET. */
  function SentMethod(m: Method): (v: Method)
    ensures m == "" ==> v == GET
    ensures m != "" ==> v == m
  {
    if m == "" then GET else m
  }

  /** http.NewRequest rejects the method and returns a nil request, whose
      header the next statement sets: a nil dereference. */
  predicate MethodRejected(req: RequestView) {
    !ValidMethod(SentMethod(req.httpMethod))
  }

  /** The four methods the library declares are accepted; one with a space
      is not. */
  lemma StandardMethodsValid()
    ensures ValidMethod(GET) && ValidMethod(POST) && ValidMethod(PUT) && ValidMethod(DELETE)
    ensures !ValidMethod("GE T")
  {
    assert IsTokenChar('G') && IsTokenChar('E') && IsTokenChar('T');
    assert IsTokenChar('P') && IsTokenChar('O') && IsTokenChar('S') && IsTokenChar('U');
    assert IsTokenChar('D') && IsTokenChar('L');
    assert "GE T"[2] == ' ' && !IsTokenChar(' ');
  }

  /** A JSON request whose URL parses and whose payload encodes, sent with
      the method "GE T", panics. */
  lemma RejectedMethodPanics(req: RequestView, env: Env)
    requires env.parseURL(req.config.url).None? && req.requestType == JSONRequestType
    requires env.marshal(req.payload).Success? && req.httpMethod == "GE T"
    ensures Panics(req, env)
  {
    StandardMethodsValid();
  }

  /** DoHTTPRequest panics: once the URL has parsed, either the payload
      switch panics, or a body is chosen and the method is then rejected. */
  predicate Panics(req: RequestView, env: Env) {
    && env.parseURL(req.config.url).None?
    && (PayloadPanics(req) || (SelectBody(req, env.marshal).Success? && MethodRejected(req)))
  }

  /** The body DoHTTPRequest sends. */
  function SelectBody(req: RequestView, marshal: Payload -> Result<Bytes, Error>): (r: Result<Body, Error>)
    requires !PayloadPanics(req)
    ensures req.requestType == JSONRequestType ==>
              (r.Failure? <==> marshal(req.payload).Failure?) &&
              (r.Success? ==> r.value == BytesBody(marshal(req.payload).value)) &&
              (r.Failure? ==> r.error == marshal(req.payload).error)
    ensures req.requestType == RawRequestType && req.payload.ByteSlice? ==> r == Success(BytesBody(req.payload.bytes))
    ensures req.requestType == RawRequestType && req.payload.Reader? ==> r == Success(StreamBody(req.payload.stream))
    ensures (req.requestType != JSONRequestType &&
             !(req.requestType == RawRequestType && (req.payload.ByteSlice? || req.payload.Reader?)))
            ==> r == Success(BytesBody([]))
  {
    if req.requestType == JSONRequestType then
      match marshal(req.payload)
      case Failure(e) => Failure(e)
      case Success(b) => Success(BytesBody(b))
    else if req.requestType == RawRequestType then
      match req.payload
      case ByteSlice(b) => Success(BytesBody(b))
      case Reader(s) => Success(StreamBody(s))
      case _ => Success(BytesBody([]))
    else
      Success(BytesBody([]))
  }

  /** The headers DoHTTPRequest sets, in order: Content-Type, then every
      extra header, then Authorization. */
  function RequestHeader(req: RequestView): (h: Header)
    ensures req.authorization.Some? ==> "Authorization" in h && h["Authorization"] == AuthorizationHeader(req.authorization.value)
    ensures forall k :: req.headers.Some? && k in req.headers.value && !(k == "Authorization" && req.authorization.Some?)
              ==> k in h && h[k] == req.headers.value[k]
    ensures HeaderContentType in h
    ensures !(req.headers.Some? && HeaderContentType in req.headers.value) ==> h[HeaderContentType] == req.contentType
    ensures forall k :: k in h ==> k == HeaderContentType || k == "Authorization" || (req.headers.Some? && k in req.headers.value)
    ensures "Authorization" in h ==> req.authorization.Some? || (req.headers.Some? && "Authorization" in req.headers.value)
  {
    var extra := req.headers.GetOr(map[]);
    var auth := if req.authorization.Some? then map["Authorization" := AuthorizationHeader(req.authorization.value)] else map[];
    map[HeaderContentType := req.contentType] + extra + auth
  }

  /** DoHTTPRequest up to the point where the client sends: the URL is
      parsed, then the body chosen, then the headers set. */
  function BuildHttpRequest(req: RequestView, env: Env): (r: Result<HttpRequest, Error>)
    requires !Panics(req, env)
    ensures env.parseURL(req.config.url).Some? ==> r == Failure(env.parseURL(req.config.url).value)
    ensures r.Failure? <==> env.parseURL(req.config.url).Some? || SelectBody(req, env.marshal).Failure?
    ensures r.Success? ==> r.value == HttpRequest(SentMethod(req.httpMethod), req.config.url, req.endpoint,
                                                  SelectBody(req, env.marshal).value, RequestHeader(req))
    ensures r.Success? ==> ValidMethod(r.value.verb) && (req.httpMethod == "" ==> r.value.verb == GET)
  {
    match env.parseURL(req.config.url)
    case Some(e) => Failure(e)
    case None =>
      match SelectBody(req, env.marshal)
      case Failure(e) => Failure(e)
      case Success(body) => Success(HttpRequest(SentMethod(req.httpMethod), req.config.url, req.endpoint, body, RequestHeader(req)))
  }

  /** DoHTTPRequest: build, then let the client send. */
  function DoHTTPRequest(req: RequestView, env: Env): (r: Result<HttpResponse, Error>)
    requires !Panics(req, env)
    ensures BuildHttpRequest(req, env).Failure? ==> r == Failure(BuildHttpRequest(req, env).error)
    ensures BuildHttpRequest(req, env).Success? ==> r == env.exchange(BuildHttpRequest(req, env).value)
  {
    match BuildHttpRequest(req, env)
    case Failure(e) => Failure(e)
    case Success(h) => env.exchange(h)
  }

  /** The check of the X-Response-Status header: it must parse as an
      integer (strconv.Atoi) and lie in 0..1. */
  function ParseStatus(statusStr: string): (r: Result<ResponseStatus, Error>)
    ensures r.Success? <==> Atoi(statusStr) == Some(0) || Atoi(statusStr) == Some(1)
    ensures r.Success? ==> Atoi(statusStr) == Some(r.value as int)
    ensures r.Failure? ==> r.error == ErrInvalidResponseHeaders
  {
    if statusStr == "" then Failure(ErrInvalidResponseHeaders)
    else
      match Atoi(statusStr)
      case None => Failure(ErrInvalidResponseHeaders)
      case Some(v) => if v > 1 || v < 0 then Failure(ErrInvalidResponseHeaders) else Success(v as ResponseStatus)
  }

  /** A status header written as the server writes it (%d of an int) is
      accepted exactly when it is 0 or 1, and then read back unchanged. */
  lemma ParseStatusOfItoa(n: int)
    requires MinInt64 <= n <= MaxInt64
    ensures ParseStatus(Itoa(n)).Success? <==> n == 0 || n == 1
    ensures ParseStatus(Itoa(n)).Success? ==> ParseStatus(Itoa(n)).value as int == n
  {
    AtoiItoa(n);
  }

  /** The outcome of Do: the response (nil when absent), the error, the
      value decoded into retVar (None when retVar was left untouched) and
      whether the response body was closed. */
  datatype DoResult<T> = DoResult(
    response: Option<RestRequestResponse>,
    err: Option<Error>,
    filled: Option<T>,
    bodyClosed: bool)

  /** The two status headers of a response, validated. */
  function StatusOf(resp: HttpResponse): (r: Result<ResponseStatus, Error>)
    ensures HeaderStatus !in resp.header ==> r == Failure(ErrInvalidResponseHeaders)
    ensures r.Success? ==> r.value == ResponseError || r.value == ResponseSuccess
    ensures r.Failure? ==> r.error == ErrInvalidResponseHeaders
  {
    ParseStatus(HeaderGet(resp.header, HeaderStatus))
  }

  /** Request.Do(retVar). A nil retVar is None; otherwise the unmarshalling
      function of retVar's type. */
  function Do<T>(req: RequestView, env: Env, target: Option<Bytes -> Result<T, Error>>): (d: DoResult<T>)
    requires !Panics(req, env)
    ensures DoHTTPRequest(req, env).Failure? ==> d == DoResult(None, Some(DoHTTPRequest(req, env).error), None, false)
    ensures d.err.None? <==> d.response.Some? && d.response.value.response.Some?
    ensures d.err.None? ==> d.response.value.response == Some(DoHTTPRequest(req, env).value)
    ensures d.err.None? ==> d.bodyClosed == req.closeBody &&
                             (d.response.value.status == ResponseError || d.response.value.status == ResponseSuccess)
    ensures d.err.Some? ==> d.filled.None? && !d.bodyClosed
    ensures d.response.Some? && d.err.Some? ==> d.err == Some(ErrInvalidResponseHeaders)
    ensures d.filled.Some? ==> target.Some? && d.response.Some? && d.response.value.status == ResponseSuccess
    ensures d.err.None? && d.response.value.status == ResponseSuccess && target.Some? ==> d.filled.Some?
    ensures d.response.Some? ==>
              && DoHTTPRequest(req, env).Success?
              && d.response.value.httpCode == DoHTTPRequest(req, env).value.statusCode
              && d.response.value.headers == DoHTTPRequest(req, env).value.header
  {
    match DoHTTPRequest(req, env)
    case Failure(e) => DoResult(None, Some(e), None, false)
    case Success(resp) =>
      var response := RestRequestResponse(resp.statusCode, ResponseError, "", resp.header, None);
      match StatusOf(resp)
      case Failure(e) => DoResult(Some(response), Some(e), None, false)
      case Success(status) =>
        var response := response.(status := status, message := HeaderGet(resp.header, HeaderStatusMessage));
        if status == ResponseSuccess && target.Some? then
          match resp.body
          case ReadFailed(m) => DoResult(None, Some(Other(m)), None, false)
          case ReadOk(bytes) =>
            match target.value(bytes)
            case Failure(e) => DoResult(None, Some(e), None, false)
            case Success(v) => DoResult(Some(response.(response := Some(resp))), None, Some(v), req.closeBody)
        else
          DoResult(Some(response.(response := Some(resp))), None, None, req.closeBody)
  }

  /** Missing, non-numeric or out-of-range status headers make Do fail
      with ErrInvalidResponseHeaders, returning a response that carries
      the HTTP code; the outcome does not depend on the HTTP code. */
  lemma InvalidHeaders<T>(req: RequestView, env: Env, target: Option<Bytes -> Result<T, Error>>)
    requires !Panics(req, env)
    requires DoHTTPRequest(req, env).Success?
    ensures var resp := DoHTTPRequest(req, env).value;
            var d := Do(req, env, target);
            StatusOf(resp).Failure? <==> d.response.Some? && d.err.Some?
    ensures var resp := DoHTTPRequest(req, env).value;
            StatusOf(resp).Failure? ==>
              Do(req, env, target) == DoResult(Some(RestRequestResponse(resp.statusCode, ResponseError, "", resp.header, None)),
                                               Some(ErrInvalidResponseHeaders), None, false)
  {
  }

  /** With valid headers, status and message come from the two headers. */
  lemma StatusFromHeaders<T>(req: RequestView, env: Env, target: Option<Bytes -> Result<T, Error>>)
    requires !Panics(req, env)
    requires DoHTTPRequest(req, env).Success? && StatusOf(DoHTTPRequest(req, env).value).Success?
    ensures var resp := DoHTTPRequest(req, env).value;
            var d := Do(req, env, target);
            d.response.Some? ==> d.response.value.status == StatusOf(resp).value &&
                                 d.response.value.message == HeaderGet(resp.header, HeaderStatusMessage)
  {
  }

  /** Only the status header is validated: a response whose status header
      is valid but which carries no X-Response-Message header is accepted,
      with the empty message. */
  lemma MessageHeaderOptional<T>(req: RequestView, env: Env, target: Option<Bytes -> Result<T, Error>>)
    requires !Panics(req, env)
    requires DoHTTPRequest(req, env).Success? && StatusOf(DoHTTPRequest(req, env).value).Success?
    requires HeaderStatusMessage !in DoHTTPRequest(req, env).value.header
    ensures Do<T>(req, env, None).err.None? && Do<T>(req, env, None).response.value.message == ""
    ensures Do(req, env, target).response.Some? ==> Do(req, env, target).response.value.message == ""
  {
  }

  /** Status Error never touches the body: nothing is decoded, the call
      succeeds, and supplying a destination makes no difference. */
  lemma ErrorStatusSkipsBody<T>(req: RequestView, env: Env, target: Option<Bytes -> Result<T, Error>>)
    requires !Panics(req, env)
    requires DoHTTPRequest(req, env).Success? && StatusOf(DoHTTPRequest(req, env).value) == Success(ResponseError)
    ensures Do(req, env, target).err.None? && Do(req, env, target).filled.None?
    ensures Do(req, env, target) == Do(req, env, None)
  {
  }

  /** Status Success with a destination: the body is decoded, and a read
      or decode failure makes Do return no response and that error. */
  lemma SuccessDecodes<T>(req: RequestView, env: Env, unmarshal: Bytes -> Result<T, Error>)
    requires !Panics(req, env)
    requires DoHTTPRequest(req, env).Success? && StatusOf(DoHTTPRequest(req, env).value) == Success(ResponseSuccess)
    ensures var body := DoHTTPRequest(req, env).value.body;
            var d := Do(req, env, Some(unmarshal));
            && (body.ReadFailed? ==> d.response.None? && d.err == Some(Other(body.message)))
            && (body.ReadOk? && unmarshal(body.bytes).Failure? ==> d.response.None? && d.err == Some(unmarshal(body.bytes).error))
            && (body.ReadOk? && unmarshal(body.bytes).Success? ==> d.err.None? && d.filled == Some(unmarshal(body.bytes).value))
  {
  }

  /** A response with status 1, message "ok" and no destination is a
      success carrying "ok"; status 2 is rejected whatever the message. */
  lemma StatusScenarios<T>(req: RequestView, env: Env, target: Option<Bytes -> Result<T, Error>>)
    requires !Panics(req, env)
    requires DoHTTPRequest(req, env).Success?
    ensures var h := DoHTTPRequest(req, env).value.header;
            HeaderStatus in h && h[HeaderStatus] == "1" && HeaderStatusMessage in h && h[HeaderStatusMessage] == "ok"
            && target.None? ==>
              Do(req, env, target).err.None? && Do(req, env, target).response.value.message == "ok" &&
              Do(req, env, target).response.value.status == ResponseSuccess
    ensures var h := DoHTTPRequest(req, env).value.header;
            HeaderStatus in h && h[HeaderStatus] == "2" ==> Do(req, env, target).err == Some(ErrInvalidResponseHeaders)
  {
    ParseStatusOfItoa(1);
    ParseStatusOfItoa(2);
  }
}
