/** The client handle every call starts from, and the generic call. */
module RemoteBuild {
  import opened Common
  import opened Response
  import opened Errors
  import opened Requests

  /** The failure test every service applies to Do's outcome: Do erred, or
      the server reported status Error. */
  predicate CallFailed<T>(d: DoResult<T>)
    ensures d.err.Some? ==> CallFailed(d)
    ensures d.err.None? && d.response.Some? ==> (CallFailed(d) <==> d.response.value.status == ResponseError)
  {
    d.err.Some? || (d.response.Some? && d.response.value.status == ResponseError)
  }

  /** The one error a service hands back on failure. */
  function Classify<T>(d: DoResult<T>): (e: Error)
    ensures e.Classified? && e.re.response == d.response
    ensures d.err.Some? ==> e.re.err == d.err
    ensures d.err.None? && d.response.Some? && d.response.value.status == ResponseError
            ==> e.re.err == Some(ErrResponseError)
  {
    Classified(NewErrorFromResponse(d.response, [d.err]))
  }

  /** LibRB: the data required in all requests. */
  datatype LibRB = LibRB(config: RequestConfig) {

    /** LibRB.Request: a POST to ep, with bearer authorization when asked
        for; a failed call yields no response and the classified error. */
    method Request<T>(ep: Endpoint, payload: Payload, target: Option<Bytes -> Result<T, Error>>,
                      authorized: bool, env: Env)
      returns (resp: Option<RestRequestResponse>, err: Option<Error>)
      ensures var plain := Defaults(config, ep, payload);
              var sent := if authorized then plain.(authorization := Some(GetBearerAuth(config))) else plain;
              var d := Do(sent, env, target);
              && (err.Some? <==> CallFailed(d))
              && (err.Some? ==> resp.None? && err == Some(Classify(d)))
              && (err.None? ==> resp.Some? && resp == d.response && resp.value.status == ResponseSuccess)
    {
      StandardMethodsValid();
      var req := new Requests.Request.New(config, ep, payload);
      if authorized {
        var _ := req.WithAuthFromConfig();
      }
      var d := Do(req.View(), env, target);
      if CallFailed(d) {
        return None, Some(Classify(d));
      }
      return d.response, None;
    }
  }

  /** NewLibDM: a handle holding exactly the given configuration. */
  function NewLibDM(config: RequestConfig): (lib: LibRB)
    ensures lib.config == config
  {
    LibRB(config)
  }
}
