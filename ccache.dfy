/** Clearing the server's compiler cache and querying its statistics. */
module Ccache {
  import opened Common
  import opened Response
  import opened Errors
  import opened Requests
  import opened RemoteBuild

  /** What a Go call ends in: the values it returns, or a nil
      dereference. */
  datatype Outcome<T> = Returned(value: T) | NilDereference

  /** The clearing request: a POST of /ccache/clear with no payload and
      bearer authorization. */
  function ClearCall(config: RequestConfig): (v: RequestView)
    ensures v.endpoint == EPCcacheClear && v.httpMethod == POST && v.payload == NilPayload
    ensures v.authorization == Some(GetBearerAuth(config))
    ensures !PayloadPanics(v) && !MethodRejected(v)
  {
    StandardMethodsValid();
    Defaults(config, EPCcacheClear, NilPayload).(authorization := Some(GetBearerAuth(config)), httpMethod := POST)
  }

  /** LibRB.ClearCcache as written: it reads the message of the response
      without checking that there is one, so a call that gets no response
      dereferences nil. */
  method ClearCcacheAsWritten(lib: LibRB, env: Env) returns (out: Outcome<(string, Option<Error>)>)
    ensures var d := Do<()>(ClearCall(lib.config), env, None);
            && (out.NilDereference? <==> d.response.None?)
            && (out.Returned? ==> out.value == (d.response.value.message, d.err))
  {
    var req := new Requests.Request.New(lib.config, EPCcacheClear, NilPayload);
    var r1 := req.WithAuthFromConfig();
    var r2 := r1.WithMethod(POST);
    var d := Do<()>(r2.View(), env, None);
    if d.response.None? {
      return NilDereference;
    }
    return Returned((d.response.value.message, d.err));
  }

  /** With no destination, Do returns no response exactly when the
      transport fails; so a clearing call on an unreachable server ends in
      the nil dereference. */
  lemma ClearCcacheAsWrittenPanics(config: RequestConfig, env: Env)
    ensures Do<()>(ClearCall(config), env, None).response.None? <==> DoHTTPRequest(ClearCall(config), env).Failure?
  {
  }

  /** LibRB.ClearCcache as intended: the server's message, empty when no
      response arrived, and Do's error. */
  method ClearCcache(lib: LibRB, env: Env) returns (message: string, err: Option<Error>)
    ensures var d := Do<()>(ClearCall(lib.config), env, None);
            && err == d.err
            && message == (if d.response.Some? then d.response.value.message else "")
            && (DoHTTPRequest(ClearCall(lib.config), env).Failure? ==> message == "" && err.Some?)
  {
    var req := new Requests.Request.New(lib.config, EPCcacheClear, NilPayload);
    var r1 := req.WithAuthFromConfig();
    var r2 := r1.WithMethod(POST);
    var d := Do<()>(r2.View(), env, None);
    message := if d.response.Some? then d.response.value.message else "";
    err := d.err;
  }

  /** The statistics request: a GET of /ccache/stats with no payload and
      bearer authorization. */
  function QueryCall(config: RequestConfig): (v: RequestView)
    ensures v.endpoint == EPCcacheStats && v.httpMethod == GET && v.payload == NilPayload
    ensures v.authorization == Some(GetBearerAuth(config))
    ensures !PayloadPanics(v) && !MethodRejected(v)
  {
    StandardMethodsValid();
    Defaults(config, EPCcacheStats, NilPayload).(authorization := Some(GetBearerAuth(config)), httpMethod := GET)
  }

  /** LibRB.QueryCcache: the decoded statistics (empty when nothing was
      decoded) and Do's error, unclassified. */
  method QueryCcache(lib: LibRB, env: Env, unmarshal: Bytes -> Result<StringResponse, Error>)
    returns (res: StringResponse, err: Option<Error>)
    ensures var d := Do(QueryCall(lib.config), env, Some(unmarshal));
            && err == d.err
            && res == d.filled.GetOr(StringResponse(""))
            && (err.Some? ==> res == StringResponse(""))
  {
    var req := new Requests.Request.New(lib.config, EPCcacheStats, NilPayload);
    var r1 := req.WithAuthFromConfig();
    var r2 := r1.WithMethod(GET);
    var d := Do(r2.View(), env, Some(unmarshal));
    res := d.filled.GetOr(StringResponse(""));
    err := d.err;
  }
}
