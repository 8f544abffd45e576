/** Account calls: login, registration and the reachability check. */
module User {
  import opened Common
  import opened Response
  import opened Errors
  import opened Requests
  import opened RemoteBuild

  /** The login request: the machine ID of the configuration, the user
      name lower-cased, the password as given; no authorization. */
  function LoginCall(config: RequestConfig, username: string, password: string): (v: RequestView)
    ensures v.endpoint == EPLogin && v.httpMethod == POST && v.authorization.None?
    ensures v.payload == Credentials(CredentialsRequest(config.machineID, ToLower(username), password))
    ensures !PayloadPanics(v) && !MethodRejected(v)
  {
    StandardMethodsValid();
    Defaults(config, EPLogin, Credentials(CredentialsRequest(config.machineID, ToLower(username), password)))
  }

  /** LibRB.Login: the token the server hands out, or the classified error. */
  method Login(lib: LibRB, username: string, password: string,
               env: Env, unmarshal: Bytes -> Result<LoginResponse, Error>)
    returns (res: Option<LoginResponse>, err: Option<Error>)
    ensures var d := Do(LoginCall(lib.config, username, password), env, Some(unmarshal));
            && (err.Some? <==> CallFailed(d))
            && (err.Some? ==> res.None? && err == Some(Classify(d)))
            && (err.None? ==> res.Some? && res == d.filled)
  {
    var payload := Credentials(CredentialsRequest(lib.config.machineID, ToLower(username), password));
    var req := new Requests.Request.New(lib.config, EPLogin, payload);
    var d := Do(req.View(), env, Some(unmarshal));
    if CallFailed(d) {
      return None, Some(Classify(d));
    }
    return d.filled, None;
  }

  /** The names "Alice" and "alice" log in as the same user. */
  lemma LoginIgnoresCase(config: RequestConfig, a: string, b: string, password: string)
    requires ToLower(a) == ToLower(b)
    ensures LoginCall(config, a, password) == LoginCall(config, b, password)
  {
  }

  /** The registration request: no machine ID, the user name lower-cased,
      no authorization. */
  function RegisterCall(config: RequestConfig, username: string, password: string): (v: RequestView)
    ensures v.endpoint == EPRegister && v.httpMethod == POST && v.authorization.None?
    ensures v.payload == Credentials(CredentialsRequest("", ToLower(username), password))
    ensures !PayloadPanics(v) && !MethodRejected(v)
  {
    StandardMethodsValid();
    Defaults(config, EPRegister, Credentials(CredentialsRequest("", ToLower(username), password)))
  }

  /** LibRB.Register: the body is not decoded; the response is handed back
      even when the call failed, together with the classified error. */
  method Register(lib: LibRB, username: string, password: string, env: Env)
    returns (resp: Option<RestRequestResponse>, err: Option<Error>)
    ensures var d := Do<()>(RegisterCall(lib.config, username, password), env, None);
            && resp == d.response
            && (err.Some? <==> CallFailed(d))
            && (err.Some? ==> err == Some(Classify(d)))
            && (err.None? ==> resp.Some? && resp.value.status == ResponseSuccess)
  {
    var payload := Credentials(CredentialsRequest("", ToLower(username), password));
    var req := new Requests.Request.New(lib.config, EPRegister, payload);
    var d := Do<()>(req.View(), env, None);
    if CallFailed(d) {
      return d.response, Some(Classify(d));
    }
    return d.response, None;
  }

  /** The ping request: payload "ping", authorized only when the
      configuration holds a session token. */
  function PingCall(config: RequestConfig): (v: RequestView)
    ensures v.endpoint == EPPing && v.httpMethod == POST
    ensures v.payload == PingPayload(PingRequest("ping"))
    ensures v.authorization.Some? <==> config.sessionToken != ""
    ensures v.authorization.Some? ==> v.authorization.value == GetBearerAuth(config)
    ensures !PayloadPanics(v) && !MethodRejected(v)
  {
    StandardMethodsValid();
    var plain := Defaults(config, EPPing, PingPayload(PingRequest("ping")));
    if config.sessionToken != "" then plain.(authorization := Some(GetBearerAuth(config))) else plain
  }

  /** LibRB.Ping: only Do's own error counts as a failure and is returned
      as it is; a response with status Error is a success whose content is
      empty. */
  method Ping(lib: LibRB, env: Env, unmarshal: Bytes -> Result<StringResponse, Error>)
    returns (res: Option<StringResponse>, err: Option<Error>)
    ensures var d := Do(PingCall(lib.config), env, Some(unmarshal));
            && err == d.err
            && (err.Some? ==> res.None?)
            && (err.None? ==> res == Some(d.filled.GetOr(StringResponse(""))))
  {
    var req := new Requests.Request.New(lib.config, EPPing, PingPayload(PingRequest("ping")));
    if lib.config.sessionToken != "" {
      var _ := req.WithAuthFromConfig();
    }
    var d := Do(req.View(), env, Some(unmarshal));
    if d.err.Some? {
      return None, d.err;
    }
    return Some(d.filled.GetOr(StringResponse(""))), None;
  }

  /** A server answering with status Error still counts as reachable: the
      ping returns no error and an empty response. */
  lemma PingErrorStatusIsReachable(config: RequestConfig, env: Env, unmarshal: Bytes -> Result<StringResponse, Error>)
    requires DoHTTPRequest(PingCall(config), env).Success?
    requires StatusOf(DoHTTPRequest(PingCall(config), env).value) == Success(ResponseError)
    ensures Do(PingCall(config), env, Some(unmarshal)).err.None?
    ensures Do(PingCall(config), env, Some(unmarshal)).filled.GetOr(StringResponse("")) == StringResponse("")
  {
  }
}
